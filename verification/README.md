# Krymux in Dafny

Krymux multiplexes many flow-controlled, optionally compressed streams over one connection
and ships a file synchroniser on top. This project models the parts of it where correctness
depends on several pieces of code working together, and proves what they keep. It builds
with `dafny verify dfyconfig.toml`.

* **Credit flow control** (`Credits`, `CreditSafety`, `CreditDebt`, `CreditGrowth`, `CreditLiveness`,
  `CreditTasks`). One direction of a stream as a
  state machine over atomic steps of the outbound pump, the inbound pump, the credit ticker and both channels. A
  list of actions is one interleaving; the theorems hold for all of them. `CreditTasks` holds the imperative
  code of the same steps and proves that it takes exactly these steps.
* **Transport** (`MuxFrame`, `Transport`, `TransportProofs`, `TransportReasons`, `TransportLaws`, `Session`,
  `SessionProgress`). From app to app: sniffing, compression,
  framing, batching, arbitrary arrival, dispatch, decompression and delivery, for any number of streams at once,
  opened by either end.
* **Retirement** of streams (`Retirement`), and the **Python SDK's** stricter window and lazily compacted buffer
  (`PyWindow`).
* **Incremental parsing** (`Incremental`), proved once and used for the sync protocol (`SyncWire`), WebSocket framing
  and message reassembly (`WebSocket`) and mux frames.
* **Sync** (`SyncDiff`, `SyncPass`, `MultiClient`, `SyncServer`, `SyncRefinement`, `Tombstones`, `Scanner`): the
  last-writer-wins diff, a whole pass over two trees, any number of clients, the server session and how it carries out
  its half of a pass, remembered deletions, and the hash cache.
* **DER** (`Der`): the TypeScript SDK's certificate printer against the Rust side's walker.

`Bytes`, `Windows`, `Files` and `Options` hold what several of these share.

Compression, hashing and JSON validity are function parameters constrained by the laws stated where they are used. Clocks,
file-system answers, the order of task steps and the arrival pattern of bytes are arbitrary inputs.

Some promises hold only under a condition; the model follows the code, and the condition is part of the theorem.

* The Rust sender lets a frame leave for one credit. So bytes sent and not yet consumed, wherever they are, can exceed
  the grant by 65536 less one for each frame of a 64 KiB chunk (less one for a compressed chunk). That is the bound
  (`CreditDebt.BoundedDebt`), and every configuration reaches it (`CreditDebt.BoundIsReached`).
  `sdks/WRITER_CONTRACT.md` (point 5) bounds a part of these bytes, what the receiver buffers, by the advertised
  window. How much a Rust receiver can hold also depends on its queue of 128 frames, which the credit model does not
  contain, so nothing is claimed about that promise for Rust. For the Python receive buffer it is proved
  (`PyWindow.StrictWindow`).
* While both ends keep a stream registered it can stall for good exactly when it is compressed, the receiver's window is
  below 64 KiB, and a chunk can compress to more than one frame (`CreditLiveness.DeadlockFreeIff`). Once the receiving
  end has retired the stream nothing returns credit any more.
* Among several clients without clock offset, deletions or failing actions, the newest version wins every schedule exactly
  when all other copies differ in content and are older by more than a millisecond (`MultiClient.NewestWinsIff`).
* Transfers keep the sender's modification time. So over two passes later edits of an uploaded file are all carried
  exactly when the server's clock is not behind, and those of a downloaded file exactly when it is not ahead
  (`SyncDiff.UploadedEditsCarriedIff`, `SyncDiff.DownloadedEditsCarriedIff`); other edits can be overwritten by the
  older copy (`SyncDiff.EditAfterUpload`, `SyncDiff.EditAfterDownload`).
* The download guard of a sync pass reads deletions that are not pruned and does not ask whether the client still has the
  file, so it can drop the same download in every pass (`SyncDiff.GuardDropsOnly`, `SyncDiff.DroppedForever`,
  `SyncDiff.PutBackIsDropped`).
* A directly recorded deletion replaces a younger stamp by an older one and loses it exactly when the older is past the
  maximal age (`Tombstones.OlderRecordErases`).
* A deletion of a file whose stat fails is acknowledged although the file is left (`SyncServer.OneDeleteAck`).
* A sync session that turns read-only during an upload still installs that upload, and nothing else
  (`SyncServer.LateReadonlyInstalls`, `SyncServer.LateUploadLands`).
* The certificate walker checks inner lengths against announced lengths only (`Der.PanicsIff`).

## Model

| member | source | states |
|---|---|---|
| `CreditSafety.StepKeepsInv` | crates/krymux/src/mux.rs:584-757 | Every atomic step of either pump, the ticker or a channel keeps credit and data balances, chunk accounting, growth bounds and positive grants |
| `CreditSafety.RunKeepsInv` | crates/krymux/src/mux.rs:837-1004 | The invariant holds after every interleaving of any length |
| `CreditSafety.NoWrap` | crates/krymux/src/mux.rs:644-647 | No addition to the 32-bit pending-credit counter ever wraps |
| `CreditSafety.CreditConservation` | crates/krymux/src/mux.rs:638-654 | In every reachable state credits, charged bytes, grants in flight or in hand and pending credit sum to granted plus consumed, if and only if the handshake clamp left the window alone |
| `CreditDebt.BoundedDebt` | crates/krymux/src/mux.rs:844-932 | In every configuration bytes sent and not yet consumed exceed the grant (corrected by the handshake clamp) by at most 65536 less the frames of a 64 KiB chunk, or less one if compressed; credits stay non-negative |
| `CreditDebt.BoundIsReached` | crates/krymux/src/mux.rs:844-932 | Every configuration has a run in which bytes sent and not yet consumed, in queues, in flight or at the receiver, reach this bound |
| `CreditSafety.WindowGrowth` | crates/krymux/src/mux.rs:716-740 | After k growths the grant is the smaller of the initial window times 2^k and the maximum, below 2^32, and the added grant is at most twice the decoded bytes plus k |
| `CreditSafety.GrantNeverShrinks` | crates/krymux/src/mux.rs:716-740 | The grant is monotone over every run |
| `CreditSafety.GrowthIff` | crates/krymux/src/mux.rs:716-740 | The grant changes if and only if 100 ms have passed, it is positive and below the maximum and at least half of it, rounded down, was consumed since; it then doubles up to the maximum and the difference is granted |
| `CreditSafety.DrainsIff` | crates/krymux/src/mux.rs:644-653 | Consumed bytes are granted back at once if and only if at least 16 KiB and a quarter of the window are pending |
| `CreditSafety.CreditMoves` | crates/krymux/src/mux.rs:696-701 | Draining, closing and ticking take all pending credit, sends put exactly what was taken on its way, failed sends put it back |
| `CreditGrowth.GrowthsReached` | crates/krymux/src/mux.rs:716-740 | A stream can see k growths if and only if the window is not empty and doubled k - 1 times still below its maximum |
| `CreditGrowth.LargestWindowReached` | crates/krymux/src/mux.rs:716-740 | A receiver whose app keeps consuming half its grant reaches its largest window, whatever it started from |
| `CreditLiveness.DeadlockFreeIff` | crates/krymux/src/mux.rs:844-932 | While both ends keep the stream registered, no reachable state has a sender parked for credit with nothing under way anywhere, if and only if the stream is uncompressed, or the window is at least one 64 KiB chunk, or every chunk compresses to one frame |
| `CreditLiveness.WholeChunksNeverStick` | crates/krymux/src/mux.rs:844-897 | While both ends keep the stream registered, in any configuration a sender whose chunk is uncompressed or fits one frame is never stuck |
| `CreditLiveness.DeadlockFreeMeansFed` | crates/krymux/src/mux.rs:980-1004 | While both ends keep the stream registered, no interleaving stalls if and only if from every reachable state with a parked sender the receiver, its ticker and the channels alone can bring credit |
| `CreditLiveness.ParkedSenderIsFed` | crates/krymux/src/mux.rs:980-1004 | In a configuration that cannot stall, a run of receiver, ticker and channels alone that brings a parked sender credit, from every reachable state |
| `CreditLiveness.RawStreamIsFed` | crates/krymux/src/mux.rs:980-1004 | While both ends keep the stream registered, every reachable parked sender of an uncompressed stream can be fed without moving, even with a window below one chunk |
| `CreditTasks.StreamInner.AcquireCredits` | crates/krymux/src/mux.rs:980-1004 | Takes between one credit and what is asked and there, and is exactly the protocol's acquire step |
| `CreditTasks.StreamInner.AddPending` | crates/krymux/src/mux.rs:638-653 | Counts consumed bytes modulo 2^32 and reports whether at least 16 KiB and a quarter of the window are pending, as the protocol step does |
| `CreditTasks.StreamInner.Tick` | crates/krymux/src/mux.rs:1383-1400 | Sends or restores the pending tail; sent plus pending is unchanged |
| `CreditTasks.StreamInner.MaybeGrowWindow` | crates/krymux/src/mux.rs:716-740 | Grows exactly when time has passed, the grant is positive and below the maximum and half of it was consumed; doubles it up to the maximum, returns the difference, and is the protocol's growth step |
| `CreditTasks.SendWhole` | crates/krymux/src/mux.rs:844-897 | The fast path charges and frames exactly as the split loop would, and succeeds exactly when the chunk is paid and framed in full |
| `CreditTasks.SendSplit` | crates/krymux/src/mux.rs:899-936 | The slow path does what the protocol's pump does, and succeeds exactly when the chunk is paid and framed in full |
| `CreditTasks.PaidMeansComplete` | crates/krymux/src/mux.rs:844-936 | A chunk paid in full was framed byte for byte exactly once, in frames within the cap, and conversely |
| `MuxFrame.EncodeDecodes` | crates/krymux/src/frame.rs:69-105 | Parsing an encoded frame returns it, whatever follows, for all frames within the per-type caps |
| `MuxFrame.ReadsOnlyEncodings` | crates/krymux/src/frame.rs:69-105 | Whatever frame is read, the bytes taken are its encoding |
| `MuxFrame.RejectsIff` | crates/krymux/src/mux.rs:1076-1103 | The session ends exactly for an unknown type or a payload above the cap of its type, given in bytes for each type |
| `MuxFrame.WriteBatch` | crates/krymux/src/mux.rs:1008-1064 | The writer drains a bounded number of queued frames and writes exactly their concatenation |
| `TransportProofs.StepKeepsInv` | crates/krymux/src/mux.rs:759-969 | Every step of sender, reader and inbound pump keeps bytes seen, queued, in frames and unsent equal, in order, to the bytes produced |
| `TransportProofs.InvMeansPrefix` | crates/krymux/src/mux.rs:600-681 | Under that invariant delivered bytes are a prefix of the written ones, and all of them once the FIN is processed with the app attached |
| `TransportReasons.StepKeepsWhy` | crates/krymux/src/mux.rs:600-681 | Every step keeps that no frame spans two chunks, that aborts under way were asked for by one of the ends, and that a FIN sent is under way or queued until seen |
| `TransportReasons.PumpStopsIff` | crates/krymux/src/mux.rs:600-690 | The inbound pump stops at an abort or at a compressed frame that decodes to more than 33554432 bytes, at nothing else |
| `TransportReasons.DataNeverStops` | crates/krymux/src/mux.rs:601-617 | In every state of a stream no data frame stops the pump, since one frame never decodes to more than one chunk |
| `TransportLaws.PumpDelivers` | crates/krymux/src/mux.rs:621-679 | The app gets raw frames as they are, of compressed ones what they add to the decoded bytes, and the decoder's rest at the end; of a failed write a part, then nothing |
| `TransportLaws.DispatchTakes` | crates/krymux/src/mux.rs:1297-1360 | A registered live stream takes data and FIN in order while its queue holds at most 128 items, and an abort if it holds fewer |
| `TransportLaws.SniffDecides` | crates/krymux/src/compress.rs:197-221 | The first chunk is sent raw and unflagged from then on exactly if it has one of the ten marks, and compressed and flagged otherwise |
| `Session.StepKeepsGood` | crates/krymux/src/mux.rs:1008-1104 | Every session step, on any of any number of streams opened by either end, keeps the byte stream equal to the encoding of the frames under way and each stream's own invariant |
| `Session.EndToEnd` | crates/krymux/src/mux.rs:1297-1335 | Over every run of either direction, with any number of interleaved streams opened by either end, any batching and any sniff outcome, the reader never rejects a frame, the app gets a prefix of what was written on its stream, and exactly that once the FIN is processed |
| `Session.StopsForAReason` | crates/krymux/src/mux.rs:600-690 | Over every run, a pump that stopped short of the end did so because one of the two ends aborted that stream |
| `SessionProgress.EverythingArrives` | crates/krymux/src/mux.rs:759-969 | From every reachable state, whatever other streams hold, a stream nobody aborted and whose app is attached can be carried by ordinary steps to the end, with all that was written delivered |
| `Retirement.RetiredExactlyOnce` | crates/krymux/src/mux.rs:91-109 | Under every interleaving a stream whose pump or handle is alive stays registered (barring failed open or teardown), and once both are through it is unregistered, removed exactly once |
| `Retirement.OthersStayRegistered` | crates/krymux/src/mux.rs:97-104 | The removal step never unregisters another stream, even one that reuses the id |
| `Retirement.FailOpenKeepsInv` | crates/krymux/src/mux.rs:448-465 | Removing a stream whose open failed leaves all others registered |
| `Retirement.Shared.TryRetire` | crates/krymux/src/mux.rs:93-104 | Removes the stream if and only if both flags are set and the map holds this very object; nothing else changes |
| `Retirement.Shared.DropHandle` | crates/krymux/src/mux.rs:228-239 | Dropping the handle retires the stream exactly if the pump is done and it is registered |
| `Retirement.Shared.PumpDone` | crates/krymux/src/mux.rs:963-968 | Finishing the pump retires the stream exactly if the handle is gone and it is registered |
| `PyWindow.StrictWindow` | sdks/python/krymux/mux.py:699-737 | Over every run credits, data under way, buffered bytes and returning credit sum to the clamped window, so the buffer never exceeds it and the sender is never out of credit with nothing under way |
| `PyWindow.SenderIsFed` | sdks/python/krymux/mux.py:527-540 | From every state with a sender out of credit, reading, granting, the ticker and the channels alone lead to credit |
| `PyWindow.AcquireTakes` | sdks/python/krymux/mux.py:280-289 | Charging takes what is wanted or all there is, at most 64 KiB |
| `PyWindow.ReadGrants` | sdks/python/krymux/mux.py:722-737 | A read returns all pending credit if at least 16 KiB and a quarter of the window are pending, and none otherwise |
| `PyWindow.ReceiveBuffer.HandleData` | sdks/python/krymux/mux.py:699-704 | Appends to the byte queue the buffer stands for |
| `PyWindow.ReceiveBuffer.Take` | sdks/python/krymux/mux.py:216-232 | Returns exactly the front of the byte queue; bytes moved by compaction never exceed bytes consumed, and the buffer is at most twice what it holds |
| `PyWindow.ReceiveBuffer.GrantCredit` | sdks/python/krymux/mux.py:722-737 | Returns all pending credit exactly if at least 16 KiB and a quarter of the window are pending; none is lost |
| `PyWindow.ReceiveBuffer.ReadParts` | sdks/python/krymux/mux.py:201-243 | A series of reads returns the byte queue's front in order, with total compaction bounded by total consumption |
| `Incremental.Scan` | apps/krymux-sync/src/sync/protocol.rs:248-291 | The cursor loop finds exactly the items, tail and verdict of parsing the whole buffer |
| `Incremental.ParseInTwo` | apps/krymux-sync/src/sync/protocol.rs:248-291 | Parsing what is there and continuing on the tail equals parsing everything at once, for every verdict-stable format |
| `Incremental.FeedIsParseAll` | apps/krymux-sync/src/sync/protocol.rs:248-291 | However a stream is cut, the pieces are rejected if and only if the whole is, and otherwise yield the same items and tail |
| `Incremental.ChunkedDelivery` | apps/krymux-sync/src/sync/protocol.rs:220-291 | Of encodings cut and stopped anywhere exactly the complete items come out, and the tail is a strict prefix of the next |
| `SyncWire.SyncParser.Push` | apps/krymux-sync/src/sync/protocol.rs:248-291 | Returns every message completed by a chunk and keeps the incomplete tail; a bad stream is an error |
| `SyncWire.SyncParser.PushAll` | apps/krymux-sync/src/sync/protocol.rs:241-291 | A series of pushes returns what feeding the pieces yields |
| `SyncWire.EncodeDecodes` | apps/krymux-sync/src/sync/protocol.rs:211-226 | An encoded message is recognised at the front of any buffer |
| `SyncWire.ReadsOnlyEncodings` | apps/krymux-sync/src/sync/protocol.rs:248-284 | Whatever message is read, the bytes taken are its encoding, of at most 8 MiB |
| `SyncWire.RejectsIff` | apps/krymux-sync/src/sync/protocol.rs:255-284 | A stream is rejected exactly for a length above 8388608, an unknown type or bad JSON |
| `SyncWire.ChunkedMessages` | apps/krymux-sync/src/sync/protocol.rs:220-291 | For every list of well-formed messages within the cap and every cutting, pushes return exactly the complete ones in order; the buffer is a strict prefix of one frame |
| `SyncWire.CuttingIsInvisible` | apps/krymux-sync/src/sync/protocol.rs:248-291 | On any bytes, well formed or not, cutting changes neither messages nor verdict |
| `WebSocket.MaskedTwice` | crates/krymux/src/ws.rs:363-411 | Masking twice with one key is the identity |
| `WebSocket.Unmask` | crates/krymux/src/ws.rs:363-411 | The in-place loop applies the repeating key to every byte |
| `WebSocket.EncodeDecodes` | crates/krymux/src/ws.rs:344-411 | Decoding returns any encoded frame, masked or not, in all three length forms |
| `WebSocket.WsRoundTrip` | crates/krymux/src/ws.rs:344-411 | The decoder inverts the program's own encoder for every payload within the cap |
| `WebSocket.WsDecode` | crates/krymux/src/ws.rs:363-411 | The decoding loop returns exactly the complete frames, the bytes used and whether a frame was oversized |
| `WebSocket.WsBridge.HandleFrame` | crates/krymux/src/ws.rs:525-566 | One frame updates fragment, output and pongs as the reassembly function does |
| `WebSocket.WsBridge.Receive` | crates/krymux/src/ws.rs:518-575 | One read updates the bridge as decoding and handling all complete frames does |
| `WebSocket.RejectsIff` | crates/krymux/src/ws.rs:389-391 | A frame is oversized exactly if it announces more than 2097152 bytes |
| `WebSocket.BridgeStopsIff` | crates/krymux/src/ws.rs:525-566 | The bridge stops exactly at a close frame or an assembled message above 2097152 bytes, and then writes nothing of it |
| `WebSocket.PongsAnswerPings` | crates/krymux/src/ws.rs:557-563 | Every ping is answered, in order, by a pong frame with its payload |
| `WebSocket.MessagesReassemble` | crates/krymux/src/ws.rs:527-552 | Arbitrarily fragmented messages within the cap come out as their concatenated payloads |
| `WebSocket.Reassembly` | crates/krymux/src/ws.rs:518-575 | With any masking, fragmentation, interleaved control frames and delivery, the session gets a prefix of the payloads at all times and exactly them in the end |
| `SyncDiff.Convergence` | apps/krymux-sync/src/sync/mod.rs:798-871 | After a bidirectional pass over readable files the trees agree on a path if and only if it is not in conflict and what was planned for it was neither filtered out nor failed |
| `SyncDiff.LosersAreOlder` | apps/krymux-sync/src/sync/mod.rs:805-870 | Every copy replaced or removed in a pass was strictly older than the copy or deletion that won, with the server's times moved by the offset |
| `SyncDiff.UnreadableIsLeftAlone` | apps/krymux-sync/src/sync/mod.rs:799-831 | A file that could not be read changes on neither side, in any mode, unless only the client has it and the server deleted it since |
| `SyncDiff.FailedIsLeftAlone` | apps/krymux-sync/src/sync/mod.rs:881-890 | Where an action fails or a file both have cannot be held nothing changes |
| `SyncDiff.ServerOnlyFate` | apps/krymux-sync/src/sync/mod.rs:806-821 | What becomes of a readable file only the server has, in both trees, for every mode, deletion and filter |
| `SyncDiff.ClientOnlyFate` | apps/krymux-sync/src/sync/mod.rs:852-871 | What becomes of a file only the client has, in both trees |
| `SyncDiff.BothFate` | apps/krymux-sync/src/sync/mod.rs:832-847 | Of two readable copies that differ the one newer by more than a millisecond ends up on both sides; read-only, the server's |
| `SyncDiff.ConflictsIff` | apps/krymux-sync/src/sync/mod.rs:840-846 | The conflicts are exactly the readable copies that differ with times within a millisecond, and they are left alone |
| `SyncDiff.NothingInvented` | apps/krymux-sync/src/sync/mod.rs:950-1191 | Whatever a tree holds after a pass one of the trees held before |
| `SyncDiff.Idempotence` | apps/krymux-sync/src/sync/mod.rs:798-871 | A second pass, whatever tombstones and offset it finds, plans nothing where the first could act, and with the same offset repeats its conflicts |
| `SyncDiff.SameConflicts` | apps/krymux-sync/src/sync/mod.rs:798-850 | When nothing was dropped the second pass reports exactly the same conflicts and nothing else |
| `SyncDiff.Settled` | apps/krymux-sync/src/sync/mod.rs:798-871 | After one bidirectional pass in which every planned action runs, no number of further passes, whatever tombstones they find, changes either tree or the set of conflicts |
| `SyncDiff.ReadonlyMirrors` | apps/krymux-sync/src/sync/mod.rs:812-852 | A read-only pass leaves the server as it is, brings every readable server file it may to the client and keeps what only the client has |
| `SyncDiff.GuardDropsOnly` | apps/krymux-sync/src/sync/mod.rs:899-913 | With nothing deleted meanwhile the guard drops only downloads over a copy the client has or of a path with an over-age deletion |
| `SyncDiff.DroppedForever` | apps/krymux-sync/src/sync/mod.rs:899-913 | A dropped download is dropped by every later pass, however many, that finds the same deletion, and the trees disagree on the path after each |
| `SyncDiff.NoResurrection` | apps/krymux-sync/src/sync/mod.rs:930-942 | A deletion carried out on the client is recorded so that a later pass deletes a server's copy exactly if it is older than that deletion, hence always the copy removed |
| `SyncDiff.KeepsOwnStamp` | apps/krymux-sync/src/sync/mod.rs:1101-1110 | A confirmed deletion stays on the client's record with its own stamp |
| `SyncDiff.DeletionSpreads` | apps/krymux-sync/src/sync/mod.rs:857-866 | Once the server has deleted a file for one client, another client removes its copy exactly if it is older than that deletion |
| `SyncDiff.PutBackIsDropped` | apps/krymux-sync/src/sync/mod.rs:899-913 | A concrete path on which the trees stay apart for that reason |
| `SyncDiff.SkewInvariance` | apps/krymux-sync/src/sync/mod.rs:653-658 | Shifting server clock, modification times and tombstones by any amount changes no decision of a pass |
| `SyncDiff.EditAfterUpload` | apps/krymux-sync/src/sync/mod.rs:1134-1144 | After an upload of a copy with time m, a client edit with time m2 is uploaded if and only if m2 + offset > m + 1, and due to be overwritten by the old copy if and only if m > m2 + offset + 1 |
| `SyncDiff.EditAfterDownload` | apps/krymux-sync/src/sync/mod.rs:1064-1068 | After a download of a copy with time m, a server edit with time m2 is downloaded if and only if m2 - offset > m + 1, and due to be overwritten by the old copy if and only if m > m2 - offset + 1 |
| `SyncDiff.UploadedEditsCarriedIff` | apps/krymux-sync/src/sync/mod.rs:387-391 | All later edits of an uploaded file are uploaded if and only if the server's clock is not behind the client's |
| `SyncDiff.DownloadedEditsCarriedIff` | apps/krymux-sync/src/sync/mod.rs:1064-1068 | All later edits of a downloaded file are downloaded if and only if the server's clock is not ahead of the client's |
| `SyncDiff.DeleteAgreement` | apps/krymux-sync/src/sync/mod.rs:1088-1093 | The server's last-writer guard accepts every deletion the client plans, if its file is unchanged |
| `SyncDiff.SentStampMeans` | apps/krymux-sync/src/sync/mod.rs:1089-1093 | The server accepts a deletion as sent exactly if its copy is not newer than it on the client's clock or has no positive time |
| `SyncDiff.PlanServerFile` | apps/krymux-sync/src/sync/mod.rs:798-850 | The body of the first loop adds exactly the decision about its file |
| `SyncDiff.PlanClientFile` | apps/krymux-sync/src/sync/mod.rs:853-870 | The body of the second loop adds exactly the decision about its file |
| `SyncDiff.MakePlan` | apps/krymux-sync/src/sync/mod.rs:774-871 | Both loops together leave exactly the per-path decisions in the five lists and count the conflicts |
| `SyncPass.DropDeleted` | apps/krymux-sync/src/sync/mod.rs:899-913 | The guard keeps exactly the downloads not deleted after the server's copy |
| `SyncPass.RemoveLocal` | apps/krymux-sync/src/sync/mod.rs:915-947 | Removes exactly the planned files that can be removed and records each with the server's stamp on the client's clock |
| `SyncPass.RemoveRemote` | apps/krymux-sync/src/sync/mod.rs:1085-1122 | Removes exactly the files whose deletion the server accepts and carries out, and reports them |
| `SyncPass.RecordEach` | apps/krymux-sync/src/sync/mod.rs:1101-1110 | Recording deletions one at a time leaves the store as recording all at once |
| `SyncPass.Run` | apps/krymux-sync/src/sync/mod.rs:758-1191 | A whole pass, loop by loop, with any of its actions failing, turns both trees into those the per-path decisions call for, whatever the lists' order, records exactly the deletions carried out on both sides, and counts the conflicts |
| `SyncRefinement.DeletionsCarriedOut` | apps/krymux-sync/src/sync/mod.rs:220-282 | Sending deletions to the session removes exactly the files and confirms exactly the paths the pass says, one answer each |
| `SyncRefinement.UploadsCarriedOut` | apps/krymux-sync/src/sync/mod.rs:283-407 | Sending uploads to the session installs exactly those that do not fail, showing as the entries announced |
| `SyncRefinement.SessionCarriesOutPass` | apps/krymux-sync/src/sync/mod.rs:1085-1191 | A plan's deletions and uploads sent message by message leave the session's files as the pass leaves the server's tree |
| `MultiClient.NewestWinsIff` | apps/krymux-sync/src/sync/mod.rs:805-870 | Without clock offset, tombstones or failing actions and with readable copies, all schedules whose first round covers every client leave the newest version on the server, and a second such round leaves it everywhere, if and only if every other copy has another hash and is older by more than 1 ms |
| `MultiClient.EveryoneGetsNewest` | apps/krymux-sync/src/sync/mod.rs:805-870 | Without clock offset, tombstones or failing actions, for any number of clients and any two covering rounds, a version that beats all other copies is on the server after the first and everywhere after the second |
| `MultiClient.ServerCopySpoils` | apps/krymux-sync/src/sync/mod.rs:832-847 | A copy on the server that the newest version does not beat keeps it off the server in some covering round |
| `MultiClient.ClientCopySpoils` | apps/krymux-sync/src/sync/mod.rs:832-847 | A copy on a client that the newest version does not beat stays there in some schedule |
| `MultiClient.NothingAppears` | apps/krymux-sync/src/sync/mod.rs:805-870 | A path nobody has appears nowhere |
| `MultiClient.TouchedCopyLoses` | apps/krymux-sync/src/sync/mod.rs:832-847 | For every trio of a version, a touched copy of it and a version in between, a round leaves the server with the older one |
| `SyncServer.SafeStaysBelow` | apps/krymux-sync/src/sync/mod.rs:20-36 | A path that is let through resolves strictly below the root |
| `SyncServer.SafeIff` | apps/krymux-sync/src/sync/mod.rs:22-36 | A path is let through exactly if it has no NUL and no piece between slashes of either kind is empty, a dot, two dots or has a colon |
| `SyncServer.HelloNegotiates` | apps/krymux-sync/src/sync/mod.rs:143-178 | The answers to a hello, and that the client's mode is taken over exactly in a bidirectional session |
| `SyncServer.OneDeleteAck` | apps/krymux-sync/src/sync/mod.rs:220-282 | Every deletion is answered once, with the exact condition for a good answer and for the removal |
| `SyncServer.OtherMessages` | apps/krymux-sync/src/sync/mod.rs:179-219 | Scan requests, downloads and completion: their answers and ends |
| `SyncServer.UploadsAreOpened` | apps/krymux-sync/src/sync/mod.rs:283-438 | In every reachable state the upload under way holds exactly the data received since its own accepted start |
| `SyncServer.VerifiedInstall` | apps/krymux-sync/src/sync/mod.rs:332-407 | Over every sequence of messages and outside changes, a message changes a path only by a deletion the copy is not newer than, or by finishing an upload whose data has the declared length and hash |
| `SyncServer.ReadonlyForever` | apps/krymux-sync/src/sync/mod.rs:153-157 | A read-only session without an upload under way never changes a file or its mode again, whatever is sent |
| `SyncServer.LateReadonlyInstalls` | apps/krymux-sync/src/sync/mod.rs:332-438 | In a session that is read-only with an upload under way, over every sequence of messages and outside changes, messages change at most that upload's path, at most once, and only by finishing it verified with all its data |
| `SyncServer.LateUploadLands` | apps/krymux-sync/src/sync/mod.rs:143-157 | Turning read-only does not stop an upload that verifies |
| `SyncServer.OneAck` | apps/krymux-sync/src/sync/mod.rs:283-438 | Every upload is answered exactly once, wherever it fails; good, with the file holding what was sent, if and only if it is let in, every chunk is written, size and declared hash match and flush and rename succeed; otherwise nothing changed |
| `SyncServer.AcksMatchUploads` | apps/krymux-sync/src/sync/mod.rs:628-642 | For every series of requests the i-th acknowledgement belongs to the i-th upload |
| `SyncServer.SyncSession.HandleHello` | apps/krymux-sync/src/sync/mod.rs:143-178 | The mode changes only from `bidir`; a wrong version ends the session |
| `SyncServer.SyncSession.HandleDelete` | apps/krymux-sync/src/sync/mod.rs:220-282 | Removes the file and acknowledges under the exact conditions; idempotent success, every refusal |
| `SyncServer.SyncSession.HandlePutStart` | apps/krymux-sync/src/sync/mod.rs:283-331 | Opens an upload or rejects it with one acknowledgement |
| `SyncServer.SyncSession.HandlePutDone` | apps/krymux-sync/src/sync/mod.rs:332-407 | Installs a verified upload and acknowledges either way |
| `SyncServer.SyncSession.HandleBin` | apps/krymux-sync/src/sync/mod.rs:415-438 | Takes a chunk or aborts the upload with one acknowledgement |
| `SyncServer.SyncSession.HandleBatch` | apps/krymux-sync/src/sync/mod.rs:137-447 | The message loop runs a batch as the session function does and stops when the session ends |
| `Tombstones.NoDeletionLost` | apps/krymux-sync/src/sync/tombstones.rs:87-127 | Over every run with concurrent watchers, one flusher and direct records, a queued deletion is in the queue, in the flusher's hands or in the store until the oldest stamp put on its path since is 30 days (2592000000 ms) old |
| `Tombstones.LoadAfterFlush` | apps/krymux-sync/src/sync/tombstones.rs:99-121 | A load after a flush sees every deletion queued before the flush began, until the oldest stamp put on its path since is 30 days old |
| `Tombstones.KeptIff` | apps/krymux-sync/src/sync/tombstones.rs:124-127 | A stamp counts exactly if it is positive and less than 2592000000 ms old |
| `Tombstones.QueueIsSafe` | apps/krymux-sync/src/sync/tombstones.rs:87-93 | Queueing protects a deletion from its stamp on; queued twice, it keeps the first stamp |
| `Tombstones.OlderRecordErases` | apps/krymux-sync/src/sync/tombstones.rs:113-121 | A recorded stamp replaces any other; the path survives if and only if the recorded one is not over age |
| `Tombstones.SecondFlusherMisses` | apps/krymux-sync/src/sync/tombstones.rs:99-108 | In every state where a flush holds a deletion that is not stored and nothing is queued, a second flush is over at once and its load misses the deletion, which the first merge brings exactly if it is not over age |
| `Tombstones.LateMergeTurnsBack` | apps/krymux-sync/src/sync/tombstones.rs:113-121 | Two flushes merged in the wrong order put the older stamp back |
| `Tombstones.MergeEntries` | apps/krymux-sync/src/sync/tombstones.rs:113-118 | The merging loop overrides the store by the entries |
| `Tombstones.TombstoneStore.Enqueue` | apps/krymux-sync/src/sync/tombstones.rs:87-93 | Performs the queue step |
| `Tombstones.TombstoneStore.RecordWith` | apps/krymux-sync/src/sync/tombstones.rs:113-121 | Performs the record step |
| `Tombstones.TombstoneStore.Flush` | apps/krymux-sync/src/sync/tombstones.rs:99-108 | Performs the take and merge steps and leaves the queue empty |
| `Tombstones.TombstoneStore.Load` | apps/krymux-sync/src/sync/tombstones.rs:61-67 | Loading and pruning yields exactly the stored stamps that are positive and less than 2592000000 ms old |
| `Scanner.CacheAgrees` | apps/krymux-sync/src/sync/scanner.rs:178-257 | Over any run of scans and edits that give changed files new stats, a scan reports the hash an uncached scan would or that of the content at stat time; both are one if the file did not change in between; unknown times are never trusted |
| `Scanner.ReportsCurrentContent` | apps/krymux-sync/src/sync/scanner.rs:206-224 | A readable file whose stat still holds is reported with the hash of its content, even if an edit fell between stat and hash of an earlier scan |
| `Scanner.SecondScanNeedsNoReading` | apps/krymux-sync/src/sync/scanner.rs:208-222 | A file hashed by one scan is reported with that hash by the next as long as its stat is the same, even if it cannot be read |
| `Scanner.RestoredStatIsStale` | apps/krymux-sync/src/sync/scanner.rs:63-65 | An edit that restores a cached stat is reported with the old hash |
| `Scanner.Worker` | apps/krymux-sync/src/sync/scanner.rs:206-224 | A worker reports for each of its files the cached hash on a hit and the read one otherwise |
| `Scanner.ScanAndHash` | apps/krymux-sync/src/sync/scanner.rs:188-251 | Any number of workers, each with only its own cache lines, report what one worker with the whole cache would, in order; the new cache holds exactly the hashed files |
| `Der.DerLen` | sdks/typescript/src/der.ts:10-19 | The loop yields the shortest length field |
| `Der.ReadLength` | crates/krymux/src/keys.rs:51-54 | The loop reads the big-endian number |
| `Der.DerChildren` | crates/krymux/src/keys.rs:62-77 | The walker's loop returns the children function |
| `Der.PrintedHeader` | crates/krymux/src/keys.rs:37-59 | Any printed element below 4 GiB is read back, wherever it stands |
| `Der.ChildrenOfPrinted` | crates/krymux/src/keys.rs:62-77 | For every list of printed elements the walker finds exactly their boundaries |
| `Der.ExtractFromPrinted` | crates/krymux/src/keys.rs:80-109 | From any certificate assembled of elements, with or without a version, the key element comes out byte for byte if it is there and holds the Ed25519 identifier; otherwise it is an error |
| `Der.ExtractedHasOid` | crates/krymux/src/keys.rs:104-107 | From any bytes only an element with the Ed25519 identifier is extracted |
| `Der.HeaderIff` | crates/krymux/src/keys.rs:37-50 | A header is read unless it is cut off, indefinite or takes more than four length octets |
| `Der.IntIsUnsigned` | sdks/typescript/src/der.ts:38-55 | An INTEGER is the shortest encoding of the number that reads as positive |
| `Der.ArcIsItsNumber` | sdks/typescript/src/der.ts:62-71 | An arc of an identifier is its number in base 128, high bits set on all but the last octet |
| `Der.CertificateRoundTrip` | sdks/typescript/src/keys.ts:87-99 | The key the TypeScript SDK puts into a certificate is the one the Rust side extracts |
| `Der.SpkiAgrees` | sdks/typescript/src/der.ts:115-123 | Both sides encode a 32-byte key identically |
| `Der.PanicsIff` | crates/krymux/src/keys.rs:80-109 | Extraction slices past its input if and only if the first inner element announces more than there is and the outer one covers it |
| `Der.TruncatedPanics` | crates/krymux/src/keys.rs:80-87 | Four bytes for which it does |

## Left out

- TLS, sockets, the runtime's scheduling and timers, signatures and the JSON and SHA libraries: foreign code; they are parameters or arbitrary choices here.
- Command-line programs, configuration, SOCKS5 and HTTP front ends, router, launcher page and the notify hub: not modelled.
- Weak-memory effects of acquire/release: steps are sequentially consistent.
- CreditSafety.StepKeepsInv: excludes a largest window within one chunk of 2^32, where the code's own 32-bit arithmetic would overflow, and the decompressor's held-back tail at the end of a stream, which is empty for output flushed after each chunk.
- CreditLiveness.DeadlockFreeIff: assumes both ends keep the stream registered; after the receiving end retires it, data is dropped and no credit returns, so a sender may wait for good.
- CreditDebt.BoundIsReached: the receiver's inbound queue of 128 frames is not told apart from the channel, so nothing is said about how much of the unconsumed data the receiver itself holds.
- MultiClient.NewestWinsIff: fixes a clock offset of zero, no tombstones and no failing action.
- Session.EndToEnd: credit waits are modelled apart, in the credit modules, and an aborted stream ends with a prefix.
- SessionProgress.EverythingArrives: says that the end can be reached, not that every fair schedule reaches it.
- SyncRefinement.SessionCarriesOutPass: stats succeed and nobody else uses the server meanwhile.
- SyncWire.ChunkedMessages: a JSON message is bytes that satisfy a validity predicate; parsing its fields is not modelled.
- Credit conservation of the TypeScript `stream.ts`, whose loop stops charging once the wire bytes are sent, and the Go decompressor's hand-over: not modelled.
- SyncPass.Run: an action succeeds or leaves everything as it was; nobody else changes trees or stores meanwhile; all records of a pass carry one reading of the clock; retries and the pairing of download requests with replies are not modelled, and modification times are exact rather than rounded to nanoseconds.
- SyncServer.VerifiedInstall: outcomes of file operations are arbitrary but each message sees one set of them; reply texts and file downloads are reduced to their kind, and the tombstones a deletion records are not part of the session.
- Tombstones.NoDeletionLost: saving the store succeeds, and a store file changed by others is not modelled.
- Scanner.CacheAgrees: directory walking and sorting are not modelled; a file read while it changes may yield any bytes.
- Der.CertificateRoundTrip: names, dates and extensions may be any elements; their own printing is not modelled.
