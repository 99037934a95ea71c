# PluQ: a Dafny model of PluQuake's backend/frontend IPC core

PluQuake splits a Quake engine into two processes. The **backend** runs the
simulation; the **frontend** presents it. They talk over three nng channels:

- resources: request/reply, port 9001;
- gameplay: publish/subscribe, port 9002;
- input: push/pull, port 9003.

Messages are FlatBuffers tables. This project models the bookkeeping the
repository itself does around those channels, and proves what it promises:

- **Shared definitions** (`pluq.h`, `pluq_shared.dfy`): the endpoint
  constants, the stored input-command and statistics records, and the vector
  copies with their exact round trip.
- **Statistics** (`pluq.c`, `pluq_stats.dfy`): the process-wide
  `perf_stats` record as a class with get, set and reset, and (in
  `pluq_backend.dfy`) the rule `PluQ_BroadcastWorldState` uses to fold a frame
  into it. Over a series of frames from a reset record, that rule yields the
  frame count, entity total, total time, and (when every frame time is
  positive) the true maximum and minimum.
- **Backend** (`pluq_backend.c`, `pluq_backend.dfy`): a class over the
  static state.
  - The channel lifecycle: enable opens resources, then gameplay, then input;
    it stops at the first failed call. Shutdown closes the three sockets.
  - The per-tick publish step: frame numbers run 0, 1, 2, ... modulo 2^32.
    The entity vector is the non-null visible entities, in order.
  - The input drain loop: the last parsable command wins, and unparsable
    buffers are skipped. Every command text reaches the console buffer.
  - The movement and view-angle appliers.
- **Frontend** (`pluq_frontend.c`, `pluq_frontend.dfy`): a class over the
  static state.
  - The dial lifecycle.
  - The gameplay consumer: the last FrameUpdate overwrites a cached record,
    which gains a `valid` flag.
  - The applier of that record to the client state.
  - The input senders: sequence numbers run 0, 1, 2, ...
  - The five-argument resource fetch: only a non-empty Texture reply
    succeeds.
- **Streamed WAD access** (`wad_pluq_frontend_stream.c`, `wad_stream.dfy`):
  `W_CleanupName` as an array routine proved against a value function. It
  lowercases, pads with zeros to 16, is safe in place, and is idempotent.
  `W_GetLumpName` maps the fetch outcome to its returned data and its
  descriptor.
- **Scenarios** (`pluq_scenario.dfy`): a published frame reaches the
  frontend's cached record and the client state intact. Commands the frontend
  builds reach the backend's stored input and command buffer. Fresh processes
  number frames and commands from 0. An arrived resource reply is handed out
  once.

How the model represents the outside world:

- The nng library is not modelled. Each process keeps a log of the nng setup
  and teardown calls it issues.
- The outcome of each setup call is a parameter. A setup sequence stops at
  the first failure, so the outcomes decide which calls are issued
  (`Transport.Attempts`).
- Each channel is a queue of received buffers. A FlatBuffers buffer is either
  a decoded table (`Root`) or one `_as_root` returns NULL for
  (`InvalidRoot`).
- The builder's success and the send outcome are parameters. So are the
  frame time (`Sys_DoubleTime`), the current time stamped on input commands,
  the blocking resource reply, and allocation success.
- Floats and doubles are `real`. On these paths they are only copied,
  compared and added.
- C integer widths are subset types. Narrowing casts are explicit modular
  reductions, such as `ToInt16`.
- Counters that wrap (`frame_counter`, `sequence`) are tied by each class
  invariant to a ghost count of frames or commands built.

The model follows the code, including where its behaviour is easy to
misread:

- When `PluQ_Backend_Enable` or `PluQ_Frontend_Init` fails, the `Shutdown`
  it calls finds the context uninitialised and closes nothing. Sockets opened
  before the failure stay open, and the frontend keeps its frontend role.
- `PluQ_ResetStats` zeroes the minimum frame time. Zero is the "unset"
  value that the update rule tests for.
- A frame time of exactly zero sets the minimum to zero, the "unset" value,
  so the next frame's time replaces it: frame times 0.5, 0.0, 0.7 from a reset
  record leave the minimum at 0.7 (`ZeroFrameTimeExample`).
- There is no running average in the statistics.
- `W_CleanupName` pads with zeros, not the spaces its comment speaks of.

## Model

| member | source | states |
|---|---|---|
| CTypes.ToInt16 | Quake/pluq_backend.c:254-255 | the `(int16_t)` cast: the result is congruent to the input modulo 2^16, lies in the int16 range, and equals the input when it fits |
| CTypes.ToUInt8 | Quake/pluq_backend.c:256 | the `(uint8_t)` cast: congruent modulo 2^8, in range, identity on values that fit |
| CTypes.ToUInt16 | Quake/pluq_backend.c:257 | the `(uint16_t)` cast: congruent modulo 2^16, in range, identity on values that fit |
| CTypes.ToUInt32 | Quake/pluq_backend.c:287 | the `(uint32_t)` cast: congruent modulo 2^32, in range, identity on values that fit |
| CTypes.ToUInt64 | Quake/pluq_backend.c:318-319 | 64-bit unsigned wrap-around of the stats counters: congruent modulo 2^64, in range, identity on values that fit |
| CTypes.ToInt32 | Quake/wad_pluq_frontend_stream.c:118 | the `(int)` cast of the fetched size: congruent modulo 2^32, in range, identity on values that fit |
| CTypes.UInt32Increment | Quake/pluq_backend.c:244 | a uint32 counter equal to n mod 2^32 equals n+1 mod 2^32 after a wrapping increment |
| Transport.Attempts | Quake/pluq_backend.c:75-124 | how many calls a setup sequence issues: all of them when every call succeeds; otherwise up to and including the first failure, with every earlier call succeeding |
| Transport.AttemptsAppend | Quake/pluq_backend.c:75-124 | two setup sequences run back to back: the second starts only when the first succeeded entirely, and the whole succeeds exactly when both do |
| Transport.SetupPrefix | Quake/pluq_backend.c:75-124 | the calls issued by two sequences run back to back are the first's issued calls, followed by the second's only when the first succeeded |
| Transport.SetupPrefix3 | Quake/pluq_frontend.c:66-122 | the same for three channels: the issued calls, case by case on which channel failed first |
| PluqShared.EndpointsDistinct | Quake/pluq.h:36-38 | the three channel endpoints are pairwise distinct |
| PluqShared.QuakeVec3ToFb | Quake/pluq.h:70-75 | the wire vector carries the three components in order |
| PluqShared.FbVec3ToQuake | Quake/pluq.h:77-80 | the engine vector carries the wire vector's x, y, z in order |
| PluqShared.Vec3RoundTrip | Quake/pluq.h:70-80 | the two copies are inverse to each other in both directions |
| PluqStats.StatsStore.constructor | Quake/pluq.c:20 | the record starts all zero |
| PluqStats.StatsStore.Get | Quake/pluq.c:22-26 | with a target, an exact copy of the record; with none, nothing; the record is not changed |
| PluqStats.StatsStore.Set | Quake/pluq.c:28-32 | with a source, the whole record is replaced; with none, it is unchanged |
| PluqStats.StatsStore.Reset | Quake/pluq.c:34-37 | all five fields become zero, the minimum frame time included |
| PluqStats.SetThenGet | Quake/pluq.c:22-32 | setting a record and reading it back yields that record |
| PluqStats.ResetTwice | Quake/pluq.c:34-37 | two resets leave the same record as one, and a read after a reset sees all zeros |
| PluqBackend.RecordFrame | Quake/pluq_backend.c:315-326 | one more frame and `numVisEdicts` more entities (64-bit wrap), the time added, the maximum raised to the frame time if exceeded, the minimum replaced when unset (zero) or exceeded |
| PluqBackend.ModAdd64 | Quake/pluq_backend.c:318-319 | accumulating with wrap-around at every step equals adding first and wrapping once |
| PluqBackend.RecordFramesFromZero | Quake/pluq_backend.c:315-326 | from a reset record, with positive frame times, the stats hold the frame count and entity total mod 2^64, the total time, and the true maximum and minimum of the series |
| PluqBackend.ZeroFrameTimeForgetsMinimum | Quake/pluq_backend.c:324-325 | a zero frame time leaves the minimum at zero, and the next positive frame time then becomes the minimum whatever came before |
| PluqBackend.ZeroFrameTimeExample | Quake/pluq_backend.c:324-325 | frame times 0.5, 0.0, 0.7 from a reset record leave the minimum at 0.7, not 0.5 |
| PluqBackend.RecordFrameConsistent | Quake/pluq_backend.c:321-325 | min <= max <= total is preserved by recording a non-negative frame time |
| PluqBackend.InGame | Quake/pluq_backend.c:221 | the frame is built only with a world model while connected; `BroadcastWorldState`'s contract and `TwoTicks` use it as the in-game condition |
| PluqBackend.EntityToMsg | Quake/pluq_backend.c:273-288 | origin and angles read back exactly through the frontend's copy; the model id; frame, skin and effects narrowed; a null colormap sent as 0; alpha in [0, 1], 1 exactly for byte 255 and 0 exactly for byte 0 |
| PluqBackend.Snapshot | Quake/pluq_backend.c:240-296 | the given frame number, the client time, both view vectors (read back exactly), the four stats narrowed, paused exactly when nonzero, in game, and the non-null visible entities |
| PluqBackend.ModelId | Quake/pluq_backend.c:282 | 0 without a model; otherwise a 16-bit value congruent to the model's address modulo 2^16 |
| PluqBackend.VisibleEntities | Quake/pluq_backend.c:266-291 | the carried entities never outnumber the visible list |
| PluqBackend.VisibleEntitiesAppend | Quake/pluq_backend.c:266-291 | the filter distributes over concatenation, so the entities keep their relative order |
| PluqBackend.VisibleEntitiesSingle | Quake/pluq_backend.c:268-270 | a null entry contributes nothing; a non-null one contributes exactly its own conversion |
| PluqBackend.VisibleEntitiesAllPresent | Quake/pluq_backend.c:266-291 | with no null entries, every entity is carried at its own index |
| PluqBackend.BuildEntities | Quake/pluq_backend.c:264-293 | the loop's result is the non-null visible entities, converted, in order |
| PluqBackend.StoredText | Quake/pluq_backend.c:380-392 | absent or empty text stores the empty string; otherwise the text's first `min(len, 255)` characters, which fit the 256-byte buffer with its terminator |
| PluqBackend.ApplyCommand | Quake/pluq_backend.c:365-392 | one parsed command overwrites sequence, time, moves, buttons and impulse, the view angles only when present, and the stored text by `StoredText` |
| PluqBackend.DrainInput | Quake/pluq_backend.c:354-396 | the stored input after draining a queue; its properties are stated by `DrainInputAppend`, `DrainInputSkipsInvalid`, `DrainInputLastWins` and `DrainStep` |
| PluqBackend.DrainCommands | Quake/pluq_backend.c:380-388 | the console-buffer appends of a drain; its properties are stated by `DrainCommandsAppend` and `DrainStep` |
| PluqBackend.AnyParsableExists | Quake/pluq_backend.c:357-394 | a drain stores a command exactly when some buffer of the queue parses |
| PluqBackend.DrainInputAppend | Quake/pluq_backend.c:354-396 | draining two queues in turn is draining their concatenation |
| PluqBackend.DrainInputSkipsInvalid | Quake/pluq_backend.c:357-363 | unparsable buffers leave the stored input as it was |
| PluqBackend.DrainInputLastWins | Quake/pluq_backend.c:354-396 | the stored input ends with the last parsable command's fields, its truncated text, and its view angles when present |
| PluqBackend.DrainStep | Quake/pluq_backend.c:354-396 | a drain handles the first buffer and then the rest: input, command-buffer appends and stored flag |
| PluqBackend.DrainCommandsAppend | Quake/pluq_backend.c:380-388 | every non-empty command text of the queue reaches the console buffer, in order, not only the last |
| PluqBackend.DrainFromStep | Quake/pluq_backend.c:357-394 | handling one buffer keeps the end of the drain fixed: a parsed command is applied, appended and marks input stored; an unparsable one changes nothing |
| PluqBackend.DrainFromEmpty | Quake/pluq_backend.c:354 | once the queue is empty, the drain ends where it is |
| PluqBackend.Backend.constructor | Quake/pluq_backend.c:37-42 | nothing open, no input stored, counters zero |
| PluqBackend.Backend.IsEnabled | Quake/pluq_backend.c:151-154 | enabled exactly when both flags are set; `Enable` sets it exactly on success and `Shutdown` clears it |
| PluqBackend.Backend.DeliverInput | Quake/pluq_backend.c:188-207 | a buffer arriving on the input channel joins the end of the queue; used by `CommandEndToEnd` |
| PluqBackend.Backend.OpenListener | Quake/pluq_backend.c:75-90 | one channel: open, create the listener, start it; the calls issued stop at the first failure; it succeeds exactly when all three do |
| PluqBackend.Backend.ListenAll | Quake/pluq_backend.c:75-124 | resources, then gameplay, then input; the nine-call log stops at the first failure; success exactly when all nine succeed |
| PluqBackend.Backend.Enable | Quake/pluq_backend.c:60-134 | already initialised: true, enabled, no new calls; otherwise the nine setup calls up to the first failure; enabled exactly on success; on failure nothing is closed |
| PluqBackend.Backend.Shutdown | Quake/pluq_backend.c:136-149 | a no-op on an uninitialised context; otherwise the three sockets are closed in order; afterwards the backend is disabled |
| PluqBackend.Backend.SendResource | Quake/pluq_backend.c:160-172 | true exactly when initialised and the send succeeds; only then is the reply sent |
| PluqBackend.Backend.PublishFrame | Quake/pluq_backend.c:174-186 | true exactly when initialised and the send succeeds; only then is the frame published |
| PluqBackend.Backend.ReceiveInput | Quake/pluq_backend.c:188-207 | uninitialised or empty: nothing is taken; otherwise the oldest queued buffer is taken |
| PluqBackend.Backend.BroadcastWorldState | Quake/pluq_backend.c:213-333 | disabled: no change; not in game: only the debug counter moves; otherwise frame number framesBuilt mod 2^32 is built from the engine state, published when the buffer is built and sent, and folded into the stats when the buffer is built |
| PluqBackend.Backend.StoreCommand | Quake/pluq_backend.c:365-394 | the stored input is overwritten field by field (view angles only when present), a non-empty text is appended with a newline, and input is marked received |
| PluqBackend.Backend.DrainQueue | Quake/pluq_backend.c:354-396 | the loop empties the queue and leaves the stored input, command buffer and received flag equal to a drain of the whole queue |
| PluqBackend.Backend.ProcessInputCommands | Quake/pluq_backend.c:345-397 | disabled: no change; otherwise the queue is emptied, the last parsable command wins, every command text is appended, and `HasPendingInput` holds exactly when input was held before or some buffer parsed |
| PluqBackend.Backend.HasPendingInput | Quake/pluq_backend.c:335-343 | input is pending exactly when enabled with input stored; `ProcessInputCommands` states when a drain makes it hold |
| PluqBackend.Backend.Move | Quake/pluq_backend.c:399-408 | only when enabled, input received and a command given: forward, side and up move are overwritten and nothing else |
| PluqBackend.Backend.ApplyViewAngles | Quake/pluq_backend.c:410-417 | only when enabled with input received: the client's view angles become the stored ones; nothing else changes |
| PluqFrontend.CopyIfPresent | Quake/pluq_frontend.c:282-287 | a present vector is copied exactly; an absent one keeps the previous value |
| PluqFrontend.StoreFrame | Quake/pluq_frontend.c:273-302 | frame number, timestamp, stats, paused and in-game overwritten; valid set; a present view vector copied, an absent one kept |
| PluqFrontend.StoreFrameIdempotent | Quake/pluq_frontend.c:273-302 | storing the same frame twice is storing it once |
| PluqFrontend.StoreFrameOverwrites | Quake/pluq_frontend.c:278-298 | a frame carrying both view vectors erases every trace of the frame before it |
| PluqFrontend.Consume | Quake/pluq_frontend.c:262-318 | the record after one received buffer; only a valid FrameUpdate changes it (`ConsumeAllIgnoresOthers`, `ConsumeAllLastFrameWins`) |
| PluqFrontend.ConsumeAll | Quake/pluq_frontend.c:253-319 | the record after a run of buffers; its properties are stated by `ConsumeAllAppend`, `ConsumeAllIgnoresOthers` and `ConsumeAllLastFrameWins` |
| PluqFrontend.ConsumeAllAppend | Quake/pluq_frontend.c:253-319 | consuming two runs of messages in turn is consuming their concatenation |
| PluqFrontend.ConsumeAllIgnoresOthers | Quake/pluq_frontend.c:304-318 | map changes, disconnects, unknown tags and invalid roots leave the record untouched |
| PluqFrontend.ConsumeAllLastFrameWins | Quake/pluq_frontend.c:253-319 | after a run of messages the record is the last FrameUpdate stored, valid, with its frame number |
| PluqFrontend.Applied | Quake/pluq_frontend.c:327-338 | view origin and angles, the four stats, paused and time come from the record; world model, connection state and entities are kept |
| PluqFrontend.AppliedIdempotent | Quake/pluq_frontend.c:321-342 | applying the same record twice is applying it once |
| PluqFrontend.InputCommandFor | Quake/pluq_frontend.c:355-365 | sequence, timestamp, moves and view angles from the command; no buttons, impulse or text |
| PluqFrontend.TextCommandFor | Quake/pluq_frontend.c:233-237 | only the text is set; every other field is at its default |
| PluqFrontend.RequestFor | Quake/pluq_frontend.c:426-435 | type and id as given; the name is carried exactly when present and non-empty |
| PluqFrontend.InterpretResponse | Quake/pluq_frontend.c:479-525 | success exactly for a Texture with a table, non-empty pixels and a successful allocation; the picture then has the reply's width, height and pixels, and size = pixels + 8 |
| PluqFrontend.FetchOutcome | Quake/pluq_frontend.c:437-525 | success only when the request was built and sent, a reply arrived and parsed, and the reply is read as a success |
| PluqFrontend.Frontend.constructor | Quake/pluq_frontend.c:20-40 | nothing dialled, no frame received, counters zero |
| PluqFrontend.Frontend.DeliverResource | Quake/pluq_frontend.c:163-182 | a reply arriving on the resource channel joins the end of the queue; used by `ResourceReplyOnce` |
| PluqFrontend.Frontend.OpenDialer | Quake/pluq_frontend.c:66-81 | one channel: open, create the dialer, start it, stopping at the first failure; success exactly when all three succeed |
| PluqFrontend.Frontend.OpenSubscriber | Quake/pluq_frontend.c:83-105 | open, subscribe to every topic, create and start the dialer, stopping at the first failure |
| PluqFrontend.Frontend.DialAll | Quake/pluq_frontend.c:64-122 | resources, gameplay, input; the ten-call log stops at the first failure; success exactly when all ten succeed |
| PluqFrontend.Frontend.Init | Quake/pluq_frontend.c:46-134 | already initialised: true and no new calls; otherwise frontend role, setup calls up to the first failure, and both initialised flags set exactly on success; on failure nothing is closed |
| PluqFrontend.Frontend.Shutdown | Quake/pluq_frontend.c:136-150 | a no-op unless initialised; otherwise the three sockets are closed in order and the context is cleared |
| PluqFrontend.Frontend.ReceiveResource | Quake/pluq_frontend.c:163-182 | not ready or empty: nothing is taken; otherwise the oldest reply is taken |
| PluqFrontend.Frontend.ReceiveFrame | Quake/pluq_frontend.c:184-203 | not ready or empty: nothing is taken; otherwise the oldest message is taken |
| PluqFrontend.Frontend.SendInput | Quake/pluq_frontend.c:205-217 | true exactly when ready and the send succeeds; only then is the command pushed |
| PluqFrontend.Frontend.SendCommand | Quake/pluq_frontend.c:223-251 | pushes the text-only command exactly when initialised, the text is present and non-empty, and it is built and sent |
| PluqFrontend.Frontend.SendInputCommand | Quake/pluq_frontend.c:344-379 | initialised with a command: command number commandsBuilt mod 2^32 is built and the count advances, pushed only when built and sent; otherwise nothing changes |
| PluqFrontend.Frontend.ReceiveWorldState | Quake/pluq_frontend.c:253-319 | true exactly when a valid root arrives; only a FrameUpdate changes the record and the last received frame number |
| PluqFrontend.Frontend.ApplyReceivedState | Quake/pluq_frontend.c:321-342 | a no-op unless initialised with a valid record; otherwise the record is applied |
| PluqFrontend.Frontend.RequestResource | Quake/pluq_frontend.c:410-526 | uninitialised: nothing; otherwise the request is sent when built, and the result is the outcome of the reply |
| WadStream.NameEndFrom | Quake/wad_pluq_frontend_stream.c:41-45 | from position i, the first NUL within 16 characters, or the end of the name or 16 |
| WadStream.NameEnd | Quake/wad_pluq_frontend_stream.c:41-45 | no NUL before the end of the name; a NUL at it unless it is 16 or the end of the string |
| WadStream.LowerChar | Quake/wad_pluq_frontend_stream.c:47-48 | A to Z are lowercased; every other character is unchanged |
| WadStream.CleanName | Quake/wad_pluq_frontend_stream.c:36-54 | 16 characters: the name lowercased up to its first NUL, then zeros |
| WadStream.NameEndClean | Quake/wad_pluq_frontend_stream.c:41-53 | a cleaned name ends where the original did |
| WadStream.CleanNameIdempotent | Quake/wad_pluq_frontend_stream.c:36-54 | cleaning a cleaned name changes nothing |
| WadStream.CleanNameFirst16 | Quake/wad_pluq_frontend_stream.c:41 | nothing past the first 16 characters is read |
| WadStream.CleanNameTerminated | Quake/wad_pluq_frontend_stream.c:43-45 | a string and the same string with its terminator clean to the same name |
| WadStream.CleanupName | Quake/wad_pluq_frontend_stream.c:36-54 | the array routine writes exactly `out[0..16)` with the cleaned input, even when `in` and `out` are the same array |
| WadStream.WadState.constructor | Quake/wad_pluq_frontend_stream.c:19-21 | the WAD globals start empty |
| WadStream.WadState.LoadWadFile | Quake/wad_pluq_frontend_stream.c:61-70 | base, lump count and lump directory become empty |
| WadStream.GetLumpinfo | Quake/wad_pluq_frontend_stream.c:77-82 | always NULL |
| WadStream.GetLumpNum | Quake/wad_pluq_frontend_stream.c:132-137 | always NULL |
| WadStream.StreamedLumpInfo | Quake/wad_pluq_frontend_stream.c:113-121 | the cleaned name, the fetched size as an `int`, zero everywhere else |
| WadStream.GetLumpName | Quake/wad_pluq_frontend_stream.c:91-130 | requests Texture id 0 by name; failure: no data, and a NULL descriptor when one is wanted; success: the fetched picture, and a descriptor with the cleaned name and fetched size, or NULL when it cannot be allocated |
| PluqScenario.FrameReachesFrontend | Quake/pluq_frontend.c:273-302 | a published frame, stored by the frontend, carries the backend's frame number, time, view vectors, and stats narrowed to their wire widths |
| PluqScenario.FrameAppliedOnFrontend | Quake/pluq_frontend.c:321-342 | applied on the frontend, a published frame reproduces the backend's view, time, paused flag and (when they fit the wire widths) stats |
| PluqScenario.InputReachesBackend | Quake/pluq_backend.c:365-378 | a movement command built by the frontend becomes the backend's stored input |
| PluqScenario.CommandReachesBackend | Quake/pluq_backend.c:380-388 | a console command sent by the frontend reaches the backend's command buffer whole with a newline, and is stored truncated |
| PluqScenario.TwoTicks | Quake/pluq_backend.c:229-244 | a freshly enabled backend publishes two in-game ticks as frames 0 and 1 and counts both |
| PluqScenario.TwoCommands | Quake/pluq_frontend.c:346-358 | a freshly initialised frontend numbers its first two commands 0 and 1 |
| PluqScenario.CommandEndToEnd | Quake/pluq_backend.c:345-397 | a console command pushed by a fresh frontend and drained by a fresh backend leaves the text and a newline in the command buffer and the text stored |
| PluqScenario.ResourceReplyOnce | Quake/pluq_frontend.c:163-182 | an arrived reply is handed out once by an initialised frontend; the next receive finds nothing |
| PluqScenario.FrameEndToEnd | Quake/pluq_frontend.c:253-342 | one frame end to end: published, received and applied, the frontend shows the backend's view and time |

## Left out

- The nng library itself: socket handles, dialers and listeners, connection
  establishment, message framing, and the REQ/REP state machine. Setup calls
  are a log with caller-supplied outcomes. Sends and receives are queues with
  caller-supplied outcomes.
- Receive errors other than "nothing queued" are not told apart from it
  (`EAGAIN` versus other codes). Both only return false after optional
  logging.
- The FlatBuffers byte layout and the builder. A message is a datatype, and a
  buffer either decodes to it or is one `_as_root` returns NULL for. The Model and
  unknown reply payloads carry no data here, because the code reads none.
- Buffers that are corrupt beyond their header. The code never runs the
  FlatBuffers verifier; it calls only `_as_root`
  (`Quake/pluq_backend.c:357`, `Quake/pluq_frontend.c:262`,
  `Quake/pluq_frontend.c:471`), so a corrupt buffer with a valid header is read
  unchecked. The model assumes every buffer either reads as a well-formed table
  or is rejected.
- Multibyte text. Texts are C byte strings, and each Dafny `char` stands for
  one byte: the 255-character cut of `StoredText` is the 255-byte cut of
  `q_strlcpy`, and `LowerChar` and `CleanName` work byte by byte. UTF-8
  sequences cut in the middle are not modelled.
- Floating point. Doubles and floats are `real`, so the entity alpha
  `ent->alpha / 255.0f` is exact here, not rounded.
- Wall-clock time. The frame time and the command timestamp are parameters.
- The model id is derived from the model pointer's address. Here the address
  is an abstract number.
- Memory management is not modelled:
  - `malloc`/`free` and the builder's buffers;
  - the leaked lump descriptor;
  - `nng_msg_free`, which the drain and receive paths call on the message
    body rather than the message.
- Logging, including the function-static `debug_count`'s only use (capping
  debug output).
- PluqBackend.Backend.BroadcastWorldState: `debug_count` is kept as an
  unbounded counter. It is a C `int`, and its overflow after 2^31 calls is
  not modelled.
- `Cbuf_AddText` is a log of the appended strings (`cbuf`). The console does
  not execute them here.
- The `MapChanged` and `Disconnected` payloads are only printed; the model
  reads neither.
- The one-argument `PluQ_Frontend_RequestResource` stub
  (`Quake/pluq_frontend.c:156`) always returns false. It conflicts with the
  five-argument definition, which is the one modelled.
- `PluQ_Frontend_ApplyViewAngles` and `PluQ_Frontend_Move` have empty
  bodies, and the unused `received_resource` record is not part of this
  model.
- PluqFrontend.Frontend.RequestResource: the blocking reply is a parameter
  rather than taken from `resourceInbox`. The reply's resource id is not
  compared with the request, as in the code. No receive timeout is set, so the
  blocking `nng_recvmsg` (`Quake/pluq_frontend.c:460`) can wait forever when no
  reply comes; the model has only "a reply arrived" or "the receive failed".
- `SwapPic` depends on the external `LittleLong` byte-order macro.
- `PluQ_Backend_Init` and the shared `PluQ_Init` are not part of this model.
  They are option parsing and library initialisation.
- The link stubs of `stubs_pluq_frontend.c`, the prototypes of
  `pluq_backend.h` and the test harnesses are not part of this model.
