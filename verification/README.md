# Connect over one WebSocket: a verified model

This project models how Connect RPCs share one connection, and proves what callers rely on.
Every WebSocket message is a 4-byte stream ID and one envelope (flag byte, big-endian 32-bit
length, payload). Four programs take part: the Go client and server, and their TypeScript
counterparts. The files follow the layers of the program.

**The multiplexer (Go).** `MuxTable` holds the lock regions and channel operations as functions.
`MuxConn` is the imperative form: the connection, stream and transport objects, each method proved
against those functions. `StreamIds` and `MuxIds` are the wrapping walk that picks stream IDs.
`MuxMachine` is every interleaving of one connection: the read loop, the threads that own streams, a
shutdown from outside, with one event per lock region, per evaluation of a `select` and per frame
written. A `select` with several ready cases may take any of them. On this machine:

- `MuxSafety`: what every run keeps. Delivery without gaps, bounded inboxes, a blocked read loop that
  can always be freed, termination and closing that are final.
- `MuxErrors`: why a stream ended is what its terminal error says, and after that nothing but resets
  is written for it.
- `MuxProjection`: noninterference. A run, seen from one stream ID, is a run of a connection that
  carries that ID only.
- `MuxOwnership` and `MuxReopen`: who removes what from the server's table. Removal is by ID, so a
  handler that outlives its reset can remove its successor. That leaves an orphan in some
  interleaving if and only if the client sends headers, a reset and headers again for one ID.
- `MuxReuse`: the same question for either side, over every removal by ID. A stream whose ID no other
  stream was given is never orphaned; on a client, a stream just opened can be orphaned if and only if
  its ID had been given out before.
- `MuxHistory` and `EndToEnd`: a client and a server joined by two ordered wires. What a stream's
  consumer reads is a prefix of what its peer wrote, in both directions.
- `SystemRuns` and `RpcOverMux` join the layers: FIFO for every run whose client picks its IDs by the
  walk, and the RPC round trips over the multiplexed connection.

**The RPC layer (Go).** `Rpc`, `RpcServer` and `RpcClient` are the stream objects with their
once-latches, against functions of their whole state. `RpcGrammar` gives the words a client may write
and says exactly which orders of calls write them. `RpcRoundTrip` and `RpcRequests` join the two ends:
every `Receive` returns what the other side sent, in both directions, and an EOF means what it says
once the headers are in. `RpcHeaders` follows the response headers from the procedure to the client. `Compression` is
the negotiation.

**Bytes.** `ByteStream` is the envelope on an arbitrarily chunked stream, `StreamFrames` the
WebSocket message in both languages.

**TypeScript.** `TsServer` is `handleMuxedBidiSocket` as objects and as turns of the event loop;
`TsRefinement` proves that every Go interleaving is one of its runs, and that one of its runs is a Go
interleaving exactly when every promise that settles finds its stream ID free. `TsOrphans` says when
it orphans a stream, and how that differs from Go. `TsClient` is every run of
`WebSocketMux` over sockets that come and go, `TsClientMux` its objects, `TsClientEffects` what each
event does and what reaches the wire. `TsBody` is the bridge from
envelopes to the bodies of a handler and back.

## Where the code and its documentation differ

The model follows the code.

- `connectwebsocket/README.md` (lines 70-76 and 241) says that IDs are never reused. The walk reuses
  them after the wrap and not before (`DistinctIffFewOpens`, `SomeRunReuses`), nothing on the server
  enforces it, and the server removes streams by ID. `OrphanIffReopened` says exactly which client
  behaviour makes that matter.
- Headers are meant to come first (`internal/bidiprotocol/client_stream.go:155`), but `CloseSend`
  does not flush them. `GrammarIffOrdered` says exactly which orders of calls keep the request well
  formed.
- A bare EOF can reach the caller before the response headers are in, and in a unary call after its
  message. `EofIsSound` and `FirstEofMayBePremature` say exactly when.
- Negotiation stays within what the client advertised exactly when that is not empty or the server has
  no compressor with an empty name (`NegotiatesOwnIffSafe`).
- The TypeScript server removes a stream's ID twice, at the close callback and when the promise
  settles. It can orphan a stream as soon as an ID is opened twice, without any reset
  (`TsOrphans.OrphanIffReused`); the Go server needs a reset in between.
- In the TypeScript client the close or error event of an old socket forgets the dial of a new one,
  so two sockets can be open, and a stream's reset can be sent to the wrong server.
  `ResetsKeepToTheirServerIffOrderly` says exactly when it is not.
- The close event of a socket fails the streams of every other socket too.
  `StreamIsIsolatedIffOthersAreClosed` says exactly which streams that can still happen to, and
  `RedialedStreamIsNotIsolated` shows it after an ordinary redial.

## Model

| member | source | states |
|---|---|---|
| `MuxConn.MuxStream.constructor` | connectwebsocket/mux.go:287-295 | a new stream has an empty inbox and is neither terminated nor finished |
| `MuxConn.MuxStream.TryDeliver` | connectwebsocket/mux.go:300-305 | delivery completes exactly when fewer than 64 frames are queued or the stream has terminated; a stream that has not terminated never loses the frame |
| `MuxConn.MuxStream.Terminate` | connectwebsocket/mux.go:309-317 | the first termination stores its error, whatever it is, and cancels the handler; a later one changes neither |
| `MuxConn.MuxStream.AcceptEnvelope` | connectwebsocket/mux.go:338-343 | reading an end-stream envelope marks the stream finished, reading anything else does not |
| `MuxConn.MuxStream.Poll` | connectwebsocket/mux.go:320-327 | a delivered frame is returned in preference to the terminal error, oldest first |
| `MuxConn.MuxConn.constructor` | connectwebsocket/mux.go:125-131 | a new connection is open, holds no stream and has used no ID |
| `MuxConn.MuxConn.NewStream` | connectwebsocket/mux.go:135-154 | a closed connection answers its first error; an open one registers a fresh stream under the first free ID of the wrapping walk, or reports exhaustion when there is none, having walked once around |
| `MuxConn.MuxConn.FindFree` | connectwebsocket/mux.go:141-153 | the loop stops at the first free ID of the walk, or back where one full turn ends when there is none |
| `MuxConn.MuxConn.Register` | connectwebsocket/mux.go:158-169 | succeeds exactly when the connection is open and the ID is free, and replaces nothing |
| `MuxConn.MuxConn.Deregister` | connectwebsocket/mux.go:171-175 | removes whatever holds the ID and nothing else |
| `MuxConn.MuxConn.Lookup` | connectwebsocket/mux.go:177-181 | finds the holder of an ID, if any |
| `MuxConn.MuxConn.TerminateAll` | connectwebsocket/mux.go:214-229 | the connection is closed with its first error, the table is empty, and every stream it held stores this error unless it had one |
| `MuxConn.MuxConn.WriteFrame` | connectwebsocket/mux.go:183-187 | one frame goes out, or none and the error that says so for a payload over 32 bits of length or a broken connection |
| `MuxConn.MuxConn.WriteEnvelope` | connectwebsocket/mux.go:348-357 | a terminated or canceled stream writes nothing and returns its terminal error or its context's; any other succeeds exactly if the payload fits and the connection works, and success means exactly one frame with the stream's ID |
| `MuxConn.MuxConn.CloseStream` | connectwebsocket/mux.go:368-379 | the stream is deregistered and terminated, with StreamClosed unless it had an error; a reset goes out exactly on a shared, working connection whose peer had not finished the stream |
| `MuxConn.MuxConn.RouteClient` | connectwebsocket/mux.go:192-211 | unknown IDs are dropped, a reset removes its stream and stores "reset by peer" unless it had an error, other frames are delivered, and no other stream changes |
| `MuxConn.MuxConn.RouteServer` | connectwebsocket/server.go:64-109 | a stream starts exactly for a headers flag on an ID that can be registered, its inbox already holding the headers; otherwise as on the client, with the handler canceled on reset |
| `MuxConn.Transport.NewClientStream` | connectwebsocket/connectwebsocket.go:194-230 | a streaming RPC of a per-stream transport gets stream 1 of a connection of its own, unless that fails first, and leaves the shared one alone; every other RPC gets a stream registered on the shared one |
| `MuxConn.Transport.SharedStream` | connectwebsocket/connectwebsocket.go:263-279 | the shared connection is kept as long as it can open a stream, else replaced by a dialed one whose first stream has ID 1; a failed dial keeps it; a dialed connection that closes first becomes the shared one and its close error is returned |
| `MuxConn.Transport.Connect` | connectwebsocket/connectwebsocket.go:246-257 | a dialed connection is new and empty, or already closed by its read loop |
| `MuxConn.Transport.Close` | connectwebsocket/connectwebsocket.go:235-244 | the shared connection is dropped, closed for good, and all its streams are terminated, with ConnClosed unless they had an error |
| `StreamIds.NextInWalk` | connectwebsocket/mux.go:141-145 | the increment that skips zero takes the k-th try to the (k+1)-th ID of the walk |
| `StreamIds.WalkVisitsOnce` | connectwebsocket/mux.go:141-152 | from any start, the 2^32-1 tries visit every non-zero ID exactly once |
| `StreamIds.AllocateIsExact` | connectwebsocket/mux.go:141-153 | an allocated ID is non-zero and not live; exhaustion is reported exactly when all non-zero IDs are live |
| `StreamIds.FirstOpensCount` | connectwebsocket/mux.go:141-151 | however streams come and go, the first 2^32-1 opens yield 1, 2, 3, ... |
| `StreamIds.FirstIsOne` | connectwebsocket/mux.go:135-151 | the first stream of a connection has ID 1 |
| `MuxIds.WalkGoesUp` | connectwebsocket/mux.go:141-151 | before the wrap a walk over live IDs not above the last one yields the next number |
| `MuxIds.WalkedIdsAreUnique` | connectwebsocket/mux.go:135-154 | opening streams by the walk keeps all IDs of a connection distinct until the wrap |
| `MuxIds.FirstOpensAreDistinct` | connectwebsocket/mux.go:135-154 | in any run from a new connection with at most 2^32-1 opens no ID is given twice |
| `MuxIds.ManyOpensRepeat` | connectwebsocket/mux.go:135-154 | however IDs are picked, more than 2^32-1 opens on a connection give one ID out twice |
| `MuxIds.DistinctIffFewOpens` | connectwebsocket/mux.go:135-154 | a connection has reused no ID if and only if at most 2^32-1 streams were opened on it |
| `MuxIds.SomeRunReuses` | connectwebsocket/mux.go:141-151 | there is a run, opening and closing one stream after the other, in which the walk gives an ID out again |
| `MuxSafety.InvStep` | connectwebsocket/mux.go:135-379 | every step of every thread keeps delivery gapless, inboxes bounded and termination one-shot |
| `MuxSafety.DeliveryIsGapless` | connectwebsocket/mux.go:300-336 | in every reachable state what was read is a prefix of what the peer sent for that ID since the stream began; with the queued frames it still is while the stream is attended, and nothing is missing while it is in the table |
| `MuxSafety.InboxesAreBounded` | connectwebsocket/mux.go:292-305 | in every reachable state every inbox holds at most 64 frames |
| `MuxSafety.BlockedReadLoopCanBeFreed` | connectwebsocket/mux.go:297-317 | a blocked read loop waits for one stream, not terminated and with 64 frames queued, and that stream's own thread has an enabled step that frees it, also at handler exit |
| `MuxSafety.AnyReadOrTerminateFrees` | connectwebsocket/mux.go:300-336 | any read or termination of that stream frees the read loop |
| `MuxSafety.ServerRegisterNeverFails` | connectwebsocket/server.go:70-109 | between the lookup and the registration nothing can take the ID or close the connection |
| `MuxSafety.ClosedForGood` | connectwebsocket/mux.go:135-229 | from a closed connection on, the closed flag and first error stay, the table stays empty and no stream enters |
| `MuxSafety.TerminatedForGood` | connectwebsocket/mux.go:309-317 | over any run a stream keeps its first terminal error |
| `MuxErrors.CausesStep` | connectwebsocket/mux.go:192-235 | every step keeps: whoever is about to be terminated was reset by the peer or held by a connection closed with that very error |
| `MuxErrors.ErrorTellsTheCause` | connectwebsocket/mux.go:206-229 | in every reachable state a terminated stream's error is StreamClosed only after its own release, the reset error only after the peer's reset for its ID, and otherwise the error the connection was closed with |
| `MuxErrors.FirstCloseIsKept` | connectwebsocket/mux.go:214-219 | only a failed read, with its own error, and a shutdown close a connection, and the first of them names the error |
| `MuxErrors.EndedWritesNothing` | connectwebsocket/mux.go:348-379 | once a stream has ended with no write in flight, nothing but resets is ever written for it, in any run on either side |
| `MuxErrors.ReleaseSteps` | connectwebsocket/mux.go:368-379 | a release removes the ID, ends the stream with StreamClosed unless it had ended, and on a client resets it exactly if no end-stream had been read and the write works |
| `MuxProjection.StepsSeen` | connectwebsocket/server.go:64-118 | a step either is the same step of the projected connection or leaves the projection unchanged |
| `MuxProjection.RunsSeen` | connectwebsocket/server.go:64-118 | the steps that concern one ID form a run of the connection projected to that ID, ending in the projected state |
| `MuxProjection.StreamsDoNotInterfere` | connectwebsocket/server.go:64-118 | every interleaving, restricted to one stream ID, is a run of a connection that never saw any other ID |
| `MuxOwnership.OwnedStep` | connectwebsocket/server.go:64-118 | every step keeps the ownership invariant: an unfinished stream out of an open table was reset, and two unfinished streams share an ID only after a reopening |
| `MuxOwnership.DeferredRemovalIsOwn` | connectwebsocket/server.go:111-118 | unless its ID was reset and reopened, a finished handler's deregister-by-ID removes no other stream |
| `MuxOwnership.ResetRemovalIsOwn` | connectwebsocket/server.go:79-83 | a reset's deregister-by-ID removes only the stream it was looked up for |
| `MuxOwnership.OneHandlerAtATime` | connectwebsocket/server.go:70-78 | unless an ID was reopened, at most one unfinished handler has it |
| `MuxOwnership.NoOrphanWithoutReopen` | connectwebsocket/server.go:79-118 | unless its ID was reopened, a stream that entered the table is there, is terminated, or was removed by a thread that terminates it next |
| `MuxReopen.ServeOne` | connectwebsocket/server.go:64-85 | whatever the next frame is, the server can take it and settle again with every handler waiting |
| `MuxReopen.FinishFirstHandler` | connectwebsocket/server.go:111-118 | when the first handler of a reopened ID returns, the second stream is orphaned |
| `MuxReopen.OrphanIffReopened` | connectwebsocket/server.go:70-118 | over all interleavings a stream can be orphaned if and only if the client sends headers, reset, headers for its ID |
| `MuxReuse.SafeStep` | connectwebsocket/mux.go:158-235 | no step of any thread, on either side, leaves a stream out of the table, live and unattended, unless another stream has its ID |
| `MuxReuse.NoOrphanWithoutSharing` | connectwebsocket/mux.go:193-235 | in every reachable state of a client or a server, a stream whose ID no other stream was given is in the table, is terminated, or was taken out by a thread that terminates it next |
| `MuxReuse.TwinRemoves` | connectwebsocket/mux.go:368-371 | an earlier stream with the same ID, however far its release is, has steps left that orphan the later one |
| `MuxReuse.ClientOrphanIffReused` | connectwebsocket/mux.go:135-175 | a stream a client has just opened can be orphaned, with nothing else opened, if and only if its ID had been given out before |
| `MuxHistory.HistoryStep` | connectwebsocket/mux.go:348-357 | every step keeps: a server stream began with its own headers frame, and all frames of an ID were written by the stream that has it |
| `EndToEnd.NothingYet` | connectwebsocket/mux.go:192-211 | nothing ever reaches a client for an ID it has not opened |
| `EndToEnd.RequestsAreFifo` | connectwebsocket/mux.go:192-211 | what a server stream reads starts with a headers envelope of the client's stream of that ID and continues exactly as that stream wrote |
| `EndToEnd.OneHandlerPerId` | connectwebsocket/server.go:70-78 | if each ID carries one headers frame, the server starts at most one handler per ID |
| `EndToEnd.OneHeadersPerStream` | internal/bidiprotocol/client_stream.go:76-81 | distinct IDs and one headers envelope per stream give one headers frame per ID on the wire |
| `EndToEnd.ResponsesAreFifo` | connectwebsocket/mux.go:300-343 | what a client stream reads is a prefix of what the server's one stream of that ID wrote, and nothing while there is none |
| `SystemRuns.DisciplineSuffices` | connectwebsocket/mux.go:135-154 | in every run of client and server whose client picks IDs by the walk, before the wrap, and whose streams write headers once, no ID has two streams on either side |
| `SystemRuns.EveryRequestIsFifo` | connectwebsocket/mux.go:192-211 | in every such run a server stream has read a prefix of what the client's stream of its ID wrote from its headers on |
| `SystemRuns.EveryResponseIsFifo` | connectwebsocket/mux.go:300-343 | in every such run a client stream has read a prefix of what the server's stream of its ID wrote, and nothing while there is none |
| `ByteStream.U32RoundTrip` | internal/bidiprotocol/envelope.go:58-58 | the four big-endian bytes of a 32-bit number decode to it |
| `ByteStream.U32Onto` | internal/bidiprotocol/envelope.go:87-87 | every four bytes are the encoding of the number they decode to |
| `ByteStream.BigEndian` | internal/bidiprotocol/envelope.go:58-58 | the four bytes have the most significant first |
| `ByteStream.EncodeLayout` | internal/bidiprotocol/envelope.go:51-68 | an envelope is a flag byte, its payload's length in four bytes, and the payload |
| `ByteStream.WriteEnvelopeChunked` | internal/bidiprotocol/envelope.go:51-68 | the whole encoding is written, nothing for an oversized payload, or a prefix of it with an error on a failing writer |
| `ByteStream.ReadFull` | internal/bidiprotocol/envelope.go:83-85 | the buffer is filled from the stream however it is chunked, or the shortage is reported, as unexpected EOF if some bytes had come |
| `ByteStream.ReadEnvelopeWithSizeLimit` | internal/bidiprotocol/envelope.go:81-99 | the result depends only on the bytes ahead, not on their chunks: the first envelope and the rest, or the error |
| `ByteStream.ReadOneTells` | internal/bidiprotocol/envelope.go:81-99 | which bytes make the envelope; a length over the limit is refused; a short head or payload gives the stream's own end, as unexpected EOF if some of it had come |
| `ByteStream.ReadEnvelopes` | internal/bidiprotocol/envelope.go:81-99 | reading envelope after envelope from any chunked reader gives the list and the error that the bytes alone determine |
| `ByteStream.ReadsBackWhatArrived` | internal/bidiprotocol/envelope.go:81-99 | cut anywhere, a written list reads back as exactly its complete envelopes, then an error that is plain EOF only at a boundary or right after a head |
| `ByteStream.ReadsBackEverything` | internal/bidiprotocol/envelope.go:51-99 | a written list reads back as itself, then the stream's end |
| `ByteStream.LeftoverBounds` | internal/bidiprotocol/envelope.go:83-97 | five leftover bytes are the head of a non-empty envelope, and none are left when all envelopes arrived |
| `ByteStream.WholeAndLeftover` | internal/bidiprotocol/envelope.go:81-99 | the complete envelopes and the leftover bytes make up all that arrived, and the leftover is no complete envelope |
| `StreamFrames.WriteFrame` | connectwebsocket/mux.go:55-79 | the message is the ID's four bytes and the envelope's encoding; an oversized payload gives none |
| `StreamFrames.FrameLayout` | connectwebsocket/mux.go:55-79 | a message is the ID, the flag, the length and the payload at their offsets, numbers most significant byte first |
| `StreamFrames.EncodeStreamFrame` | ts/packages/core/src/wire.ts:60-68 | the buffer holds the ID modulo 2^32 and the envelope, byte for byte |
| `StreamFrames.ReadInvertsWrite` | connectwebsocket/mux.go:83-101 | reading a written frame gives it back |
| `StreamFrames.ReadAcceptsOnlyFrames` | connectwebsocket/mux.go:83-101 | every accepted message is the written form of the frame read from it |
| `StreamFrames.LanguagesReadAlike` | ts/packages/core/src/wire.ts:74-94 | Go and TypeScript accept the same messages and see the same ID, flag and envelope |
| `StreamFrames.LanguagesWriteAlike` | ts/packages/core/src/wire.ts:60-94 | below 2^32 both languages write the same bytes and both read them back as that frame |
| `StreamFrames.LargeNumbersWrap` | ts/packages/web/src/connect-websocket-transport.ts:294-302 | a stream number survives the wire if and only if it is below 2^32 |
| `Compression.Options.constructor` | internal/bidiprotocol/options.go:53-62 | defaults hold one registered compressor whose name is listed, and the two default codecs |
| `Compression.Options.AddCompressors` | internal/bidiprotocol/options.go:81-86 | names are appended in order, the map gains what RegistersLast says, and every listed name stays registered |
| `Compression.RegistersLast` | internal/bidiprotocol/options.go:81-86 | registered are exactly the last compressors of each name, under their own names |
| `Compression.Options.AddCodecs` | internal/bidiprotocol/options.go:74-78 | the map gains what RegistersLastCodec says and loses no name |
| `Compression.RegistersLastCodec` | internal/bidiprotocol/options.go:74-78 | registered are exactly the last codecs of each name, under their own names |
| `Compression.Options.Finalize` | internal/bidiprotocol/options.go:65-71 | the advertised list is the comma-joined registered names; the sending codec is the named one, or else the default, and always exists |
| `Compression.SplitInvertsJoin` | internal/connectprotocol/compression.go:39-40 | splitting a joined list gives back its parts, if they have no comma |
| `Compression.JoinInvertsSplit` | internal/connectprotocol/compression.go:39-40 | any list is its parts joined again, and no part has a comma |
| `Compression.TrimIsInside` | internal/connectprotocol/compression.go:40-40 | trimming takes exactly the white space around a name away |
| `Compression.FirstKnownIsFirst` | internal/connectprotocol/compression.go:39-45 | the choice is the first known name, whatever white space surrounds the names, and there is none exactly when no name is known |
| `Compression.NegotiatedIsShared` | internal/connectprotocol/compression.go:35-46 | what is negotiated from a client's list, with or without white space around the commas, is the client's first name the server knows, and nothing only if they share none |
| `Compression.SpacedListNegotiates` | internal/connectprotocol/compression_test.go:23-26 | "br, gzip" negotiates gzip with a server that knows gzip |
| `Compression.NegotiatesOwnIffSafe` | internal/connectprotocol/compression.go:35-46 | what is negotiated is among the names advertised if and only if some were or the server has no compressor with an empty name |
| `Compression.EmptyNameIsNegotiated` | internal/connectprotocol/compression.go:39-43 | so an unnamed compressor is chosen when nothing is advertised |
| `Rpc.Conn.ReadEnvelope` | connectwebsocket/mux.go:320-343 | envelopes come in order, then the terminal error for ever; an end-stream is remembered |
| `Rpc.Conn.WriteEnvelope` | connectwebsocket/mux.go:348-357 | writes append in order; a closed stream takes none and says so, a failed one neither and returns its error |
| `Rpc.Conn.CloseSend` | connectwebsocket/mux.go:361-363 | the half-close is an empty end-stream envelope |
| `Rpc.Conn.Close` | connectwebsocket/mux.go:368-379 | one reset, unless finished, dedicated or broken, and no write afterwards |
| `RpcServer.ServerStream.SendHeaders` | internal/bidiprotocol/server.go:193-225 | headers are written once, with the negotiated compressor set, and later calls repeat the first outcome; what they hold at the client is `RpcHeaders.HeadersArrive` |
| `RpcServer.ServerStream.Send` | internal/bidiprotocol/server.go:228-254 | headers first, then the message's envelope, compressed exactly when a compressor was negotiated, or nothing and the reason: the headers' error, marshalling or compressing, the limit, the connection |
| `RpcServer.ServerStream.Receive` | internal/bidiprotocol/server.go:149-190 | EOF exactly for an end-stream or the connection's own EOF; any other failed read is returned as it is; every other envelope is the message it decodes to or the error of the check it fails |
| `RpcServer.HandleRPC` | internal/bidiprotocol/server.go:37-116 | no answer exactly if the first read fails, is no headers envelope, does not decode or names no path; otherwise what is written is the response word, cut where the connection failed, and the word ends with the verdict's end-stream |
| `RpcServer.PlayedIsBegun` | internal/bidiprotocol/server.go:193-254 | whatever the procedure does, its frames are headers then messages alike in compression |
| `RpcServer.ResponseGrammar` | internal/bidiprotocol/server.go:99-115 | every response word is headers, messages all plain or all compressed, end-stream |
| `RpcClient.ClientStream.SendHeaders` | internal/bidiprotocol/client_stream.go:76-108 | headers are written once, succeed exactly on an open, working connection, and later calls repeat the first outcome |
| `RpcClient.RequestHeaderIsIts` | internal/bidiprotocol/client_stream.go:83-108 | the headers envelope holds the path, the content type, the encodings in use and every other header of the caller as it was |
| `RpcClient.ClientStream.Send` | internal/bidiprotocol/client_stream.go:111-142 | no error exactly if the message's envelope was appended, once, after the headers; otherwise nothing is, and the error is the headers' own, of marshalling or compressing, of the limit, or the connection's |
| `RpcClient.ClientStream.CloseSend` | internal/bidiprotocol/client_stream.go:145-151 | one end-stream envelope, or the connection's error, without flushing headers; later calls do nothing |
| `RpcClient.ClientStream.Close` | internal/bidiprotocol/client_stream.go:284-287 | half-close if needed, then release: exactly the end-stream and the reset that the connection takes |
| `RpcClient.ClientStream.RecvHeaders` | internal/bidiprotocol/client_stream.go:229-251 | the first envelope must be headers; errors are kept, pseudo-headers are not surfaced |
| `RpcClient.ClientStream.TakeEnd` | internal/bidiprotocol/client_stream.go:183-194 | an end-stream finishes the stream, adds its trailers and yields its error |
| `RpcClient.ClientStream.ReadUnaryEndStream` | internal/bidiprotocol/client_stream.go:253-271 | after a unary message only an end-stream without an error is success |
| `RpcClient.ClientStream.Receive` | internal/bidiprotocol/client_stream.go:154-227 | every branch of a receive, with its reply and whole new state |
| `RpcClient.ReceiveOpens` | internal/bidiprotocol/client_stream.go:154-165 | headers go out and come in first, and an error of either is every later answer |
| `RpcClient.ReceiveDecides` | internal/bidiprotocol/client_stream.go:167-227 | then one envelope decides: the connection's error except that its EOF is a protocol error, the end-stream's error or EOF, or what the envelope decodes to |
| `RpcClient.UnaryDecides` | internal/bidiprotocol/client_stream.go:221-271 | a unary call returns its message exactly if a clean end-stream follows, and otherwise why not |
| `RpcClient.ClientStream.Decode` | internal/bidiprotocol/client_stream.go:196-219 | what one message envelope decodes to under the response headers |
| `RpcClient.EofIsSound` | internal/bidiprotocol/client_stream.go:167-194 | once headers are in, EOF is reported exactly when the stream had ended, ends now with a clean end-stream, or a unary call is cut after its message; a connection that just ends is a protocol error |
| `RpcClient.FirstEofMayBePremature` | internal/bidiprotocol/client_stream.go:154-165 | a first receive reports EOF without an end-stream exactly when the connection gave EOF for the headers, in either direction, or cut a unary call |
| `RpcGrammar.RequestGrammar` | internal/bidiprotocol/client_stream.go:76-157 | every orderly sequence of calls writes headers once, messages, at most one end-stream, then only resets |
| `RpcGrammar.ScanAccepts` | internal/bidiprotocol/client_stream.go:76-157 | what the grammar accepts, spelled out: headers first, then messages, then one end-stream, then resets |
| `RpcGrammar.GrammarIffOrdered` | internal/bidiprotocol/client_stream.go:145-151 | on a working connection the grammar holds if and only if headers were flushed before the half-close and no message was sent between it and Close |
| `RpcGrammar.CloseResetsUnfinished` | internal/bidiprotocol/client_stream.go:284-287 | Close ends a working shared stream with a reset exactly when no end-stream has been read |
| `RpcHeaders.PlayedHeader` | internal/bidiprotocol/server.go:200-204 | the headers that go out are exactly those the procedure set before its first flush or message, each with its last value by then |
| `RpcHeaders.HeadersArrive` | internal/bidiprotocol/client_stream.go:229-251 | the client surfaces those, the server codec's content type, the first encoding it listed that the server knows and what the server accepts, and no pseudo-header |
| `RpcRoundTrip.ResponseShape` | internal/bidiprotocol/server.go:99-115 | a response word carries exactly the messages the procedure framed, in order, between headers and end-stream |
| `RpcRoundTrip.NegotiatedIsUsable` | internal/bidiprotocol/server.go:207-213 | whatever the server negotiates from the client's own list, the client has registered and can undo |
| `RpcRoundTrip.TakeMessage` | internal/bidiprotocol/client_stream.go:196-219 | a server's message envelope is received as the message that was sent |
| `RpcRoundTrip.TakeEnd` | internal/bidiprotocol/client_stream.go:183-194 | a server's end-stream is received as its error or EOF, with its trailers |
| `RpcRoundTrip.StreamingRoundTrip` | internal/bidiprotocol/client_stream.go:154-227 | successive receives return exactly the messages sent, in order, then the error or EOF, then EOF on every later call; the trailers arrive; the client holds exactly the headers the procedure set in time and the protocol's own |
| `RpcRoundTrip.UnaryRoundTrip` | internal/bidiprotocol/client_stream.go:167-271 | whatever the procedure does: with one message the call returns it, or the procedure's error, only with the end-stream consumed; with none, the error or EOF; with more, a protocol error for every two of them first; then EOF for ever; trailers and headers arrive as in a streaming call |
| `RpcRoundTrip.EofMeansComplete` | internal/bidiprotocol/client_stream.go:167-194 | n messages and then EOF mean that exactly n message envelopes and a clean end-stream had come |
| `RpcRoundTrip.RequestMessageSurvives` | internal/bidiprotocol/server.go:149-190 | every request message the client framed is received as it was |
| `RpcRequests.CallsTell` | internal/bidiprotocol/client_stream.go:76-157 | calls in good order write exactly the headers, the messages they framed in order, the half-close and resets |
| `RpcRequests.RequestRoundTrip` | internal/bidiprotocol/server.go:149-190 | for every good order of calls the server opens the RPC with the client's headers, among them the path and the caller's own, and successive receives return exactly the framed messages, then EOF |
| `RpcRequests.ArrivedRequestRoundTrip` | internal/bidiprotocol/server.go:149-190 | the same as soon as the frames up to the half-close have arrived |
| `RpcRequests.RequestEofMeansComplete` | internal/bidiprotocol/server.go:149-162 | n messages and then EOF mean that the connection carried exactly n message envelopes and then an end-stream or its own EOF |
| `RpcRequests.RequestFailureIsTold` | internal/bidiprotocol/server.go:150-155 | the receive that meets a failed read returns that very error, whatever came before |
| `RpcOverMux.WholeResponse` | connectwebsocket/mux.go:300-343 | over the multiplexed connection, a client that has read an end-stream has read the server's response exactly, whatever else runs |
| `RpcOverMux.StreamingOverMux` | internal/bidiprotocol/client_stream.go:154-227 | the streaming round trip, over the multiplexed connection |
| `RpcOverMux.UnaryOverMux` | internal/bidiprotocol/client_stream.go:167-271 | the unary round trip, over the multiplexed connection |
| `RpcOverMux.RequestOverMux` | internal/bidiprotocol/server.go:149-190 | the request round trip, over the multiplexed connection |
| `TsServer.MuxedServer.constructor` | ts/packages/core/src/handle-muxed-bidi-socket.ts:96-99 | a connection starts with no stream |
| `TsServer.MuxedServer.StartStream` | ts/packages/core/src/handle-muxed-bidi-socket.ts:126-161 | a fresh entry, fed the headers, takes the ID and its promise is pending |
| `TsServer.MuxedServer.Close` | ts/packages/core/src/handle-muxed-bidi-socket.ts:157-157 | the close callback removes whatever holds the stream's ID |
| `TsServer.MuxedServer.Settle` | ts/packages/core/src/handle-muxed-bidi-socket.ts:162-170 | a settled promise removes whatever holds the stream's ID by then |
| `TsServer.MuxedServer.CancelStream` | ts/packages/core/src/handle-muxed-bidi-socket.ts:233-247 | a reset removes the ID and marks the entry |
| `TsServer.MuxedServer.OnFrame` | ts/packages/core/src/handle-muxed-bidi-socket.ts:225-248 | start, cancel, feed or drop, with the whole new state |
| `TsServer.MuxedServer.Teardown` | ts/packages/core/src/handle-muxed-bidi-socket.ts:173-184 | every live stream is marked reset, no other is, and none stays live |
| `TsServer.MuxedServer.Write` | ts/packages/core/src/handle-muxed-bidi-socket.ts:144-153 | a stream that was reset, or whose connection is broken, writes nothing; otherwise one frame with its ID |
| `TsServer.MuxedServer.Next` | ts/packages/core/src/handle-muxed-bidi-socket.ts:198-249 | one trip around the loop is one turn, on exactly the frame the message carries or the RPC that ended; a malformed message stops the loop |
| `TsServer.MuxedServer.Serve` | ts/packages/core/src/handle-muxed-bidi-socket.ts:197-258 | the whole loop is a run over exactly the frames before the first malformed message or the end, and leaves no stream live |
| `TsServer.HeardOne` | ts/packages/core/src/handle-muxed-bidi-socket.ts:217-224 | an input is heard if it is a message of exactly one frame, and stops the loop if it is any other message or the end |
| `TsServer.HeardInOrder` | ts/packages/core/src/handle-muxed-bidi-socket.ts:198-249 | all frames before the first stop are heard, in order, and nothing after |
| `TsServer.OtherDoes` | ts/packages/core/src/handle-muxed-bidi-socket.ts:228-248 | a frame that starts nothing is dropped, resets its ID's stream or is fed to it, and touches no other |
| `TsServer.RemovalDoes` | ts/packages/core/src/handle-muxed-bidi-socket.ts:157-170 | a close callback and a settled promise each remove their stream's ID, whoever holds it, and nothing else |
| `TsServer.EndDoes` | ts/packages/core/src/handle-muxed-bidi-socket.ts:173-184 | the end marks exactly the streams still held reset |
| `TsServer.MessagesReadAlike` | ts/packages/core/src/handle-muxed-bidi-socket.ts:217-224 | the loop takes the same messages for the same frames as the Go server |
| `TsRefinement.AgreeStep` | ts/packages/core/src/handle-muxed-bidi-socket.ts:225-248 | every step of the Go server keeps the correspondence with the TypeScript server taking the matching turn, if any |
| `TsRefinement.EveryGoRunIsATsRun` | ts/packages/core/src/handle-muxed-bidi-socket.ts:154-248 | every Go interleaving is a TypeScript run on the same frames and finished handlers: same live IDs, same streams started, same decision on every frame, every reading handler fed the same |
| `TsRefinement.EveryHarmlessTsRunIsAGoRun` | connectwebsocket/server.go:64-118 | a TypeScript run whose settling promises find their IDs free is some Go interleaving, with the same live IDs and the handlers fed the same at the end |
| `TsRefinement.HarmIsSeen` | ts/packages/core/src/handle-muxed-bidi-socket.ts:166-170 | a promise that settles while another stream has its ID leads where no Go interleaving does |
| `TsRefinement.TsRunIsGoRunIffHarmless` | connectwebsocket/server.go:64-118 | a TypeScript run is a Go interleaving after each of its turns if and only if every settling promise finds its ID free |
| `TsOrphans.KeptTurns` | ts/packages/core/src/handle-muxed-bidi-socket.ts:126-184 | over every run the map holds only streams being served and not reset, and an orphan has a predecessor with its ID |
| `TsOrphans.OrphanIffReused` | ts/packages/core/src/handle-muxed-bidi-socket.ts:156-170 | over all runs the TypeScript server can orphan a stream if and only if the client opens its ID twice |
| `TsOrphans.WhoOrphans` | ts/packages/core/src/handle-muxed-bidi-socket.ts:156-170 | what orphans a stream in Go does so in TypeScript, and TypeScript alone does exactly for an ID opened twice without a reset before the second time |
| `TsOrphans.UniqueIsHarmless` | ts/packages/core/src/handle-muxed-bidi-socket.ts:166-170 | while no ID is opened twice, every settling promise finds its ID free |
| `TsOrphans.ServersAgreeWithoutReuse` | connectwebsocket/server.go:64-118 | without reuse every TypeScript run is, after each of its turns, a Go interleaving |
| `TsClient.InvStep` | ts/packages/web/src/connect-websocket-transport.ts:116-291 | every event keeps: streams are fed from their own socket only, in order, and resets are at most one per released stream |
| `TsClient.MessagesStayOnTheirSocket` | ts/packages/web/src/connect-websocket-transport.ts:239-279 | over any run with fewer than 2^32 streams, a stream holds a prefix of what its own socket delivered for its ID, all of it while open, and no other socket delivers anything for it |
| `TsClient.OneResetWhileUnfinished` | ts/packages/web/src/connect-websocket-transport.ts:169-186 | a stream is reset at most once, only on its release, never after its end-stream or a server reset was heard |
| `TsClientEffects.SentIsWhatWasHanded` | ts/packages/web/src/connect-websocket-transport.ts:132-145 | over any run with fewer than 2^32 streams, the frames of an ID on the wire are, resets apart, exactly the envelopes handed to that stream's writer while its socket was open, whole and in order, all on that socket |
| `TsClientEffects.RoutesFrames` | ts/packages/web/src/connect-websocket-transport.ts:248-262 | a message is routed unless it is shorter than five bytes, and a whole frame by its ID and flag with all that follows the ID |
| `TsClientEffects.RoutedDoes` | ts/packages/web/src/connect-websocket-transport.ts:258-279 | an unknown ID changes nothing, a reset takes its stream out and fails it, any other frame goes to its stream, and no other stream notices |
| `TsClientEffects.ReleaseDoes` | ts/packages/web/src/connect-websocket-transport.ts:169-200 | the whole effect of a release: the map, the one reset and when it goes out, the idle socket and when it is closed |
| `TsClientEffects.CloseAllDoes` | ts/packages/web/src/connect-websocket-transport.ts:157-162 | close() fails exactly the streams of the map, empties it, and closes and forgets the current socket |
| `TsClient.ResetReachesItsServer` | ts/packages/web/src/connect-websocket-transport.ts:175-186 | in a run whose close and error events all came while no socket was being dialed, releasing an unfinished stream resets it on its own socket exactly when that is still open |
| `TsClient.ResetCanMissItsServer` | ts/packages/web/src/connect-websocket-transport.ts:209-245 | after any close or error event during a dial, in any state with one open socket at most, a run without further such events leads to a stream on an open socket whose reset is sent on another |
| `TsClient.ResetsKeepToTheirServerIffOrderly` | ts/packages/web/src/connect-websocket-transport.ts:175-245 | resets keep to their own server, at every point of a run and whatever follows short of a close or an error, if and only if no close or error event came during a dial |
| `TsClient.StreamIsIsolatedIffOthersAreClosed` | ts/packages/web/src/connect-websocket-transport.ts:223-238 | without another dial, the close event of a foreign socket can still fail an open stream if and only if some other socket has not had its close event |
| `TsClient.RedialedStreamIsNotIsolated` | ts/packages/web/src/connect-websocket-transport.ts:202-245 | after a socket fades and is redialed, a stream on the new, open socket is exposed to the old one's close event |
| `TsClientMux.WebSocketMux.constructor` | ts/packages/web/src/connect-websocket-transport.ts:97-108 | no socket, no stream, and 1 is the next number |
| `TsClientMux.WebSocketMux.OpenSocket` | ts/packages/web/src/connect-websocket-transport.ts:202-245 | the current socket if open, else the one on its way, else a new dial |
| `TsClientMux.WebSocketMux.OnOpen` | ts/packages/web/src/connect-websocket-transport.ts:212-216 | the opened socket becomes current |
| `TsClientMux.WebSocketMux.OnError` | ts/packages/web/src/connect-websocket-transport.ts:217-222 | the dial is forgotten, whichever socket failed |
| `TsClientMux.WebSocketMux.OnClose` | ts/packages/web/src/connect-websocket-transport.ts:223-238 | the dial is forgotten, the socket is no longer current, and every stream is failed |
| `TsClientMux.WebSocketMux.FailEveryStream` | ts/packages/web/src/connect-websocket-transport.ts:282-291 | exactly the streams of the map are failed, on whatever socket, and the map is empty |
| `TsClientMux.WebSocketMux.OpenStream` | ts/packages/web/src/connect-websocket-transport.ts:121-150 | the stream gets a number never used before and is bound to the socket it awaited |
| `TsClientMux.WebSocketMux.SendFrame` | ts/packages/web/src/connect-websocket-transport.ts:132-145 | an open socket's wire grows by exactly that envelope under the number modulo 2^32; any other socket takes nothing |
| `TsClientMux.WebSocketMux.Write` | ts/packages/web/src/connect-websocket-transport.ts:132-135 | a write goes, as it is, to the socket the stream was opened on, if that is open |
| `TsClientMux.WebSocketMux.HalfClose` | ts/packages/web/src/connect-websocket-transport.ts:136-145 | closing the writable sends an empty end-stream envelope |
| `TsClientMux.WebSocketMux.Route` | ts/packages/web/src/connect-websocket-transport.ts:248-279 | short messages and unknown IDs are dropped, a reset fails and removes its stream, an end-stream is remembered, everything else is passed on |
| `TsClientMux.WebSocketMux.CloseStream` | ts/packages/web/src/connect-websocket-transport.ts:169-200 | a known stream is removed, reset if unfinished and the current socket is open, and an idle connection is closed if so configured |
| `TsClientMux.WebSocketMux.Close` | ts/packages/web/src/connect-websocket-transport.ts:157-162 | every stream is failed, the socket is closed and forgotten |
| `TsBody.Length` | ts/packages/core/src/handle-bidi-socket.ts:284-296 | a body's length is the position of its first end-stream or headers envelope, or all there is |
| `TsBody.ReadUnaryRequestBody` | ts/packages/core/src/handle-bidi-socket.ts:280-298 | the concatenated payloads before the half-close, or the error of what stopped it |
| `TsBody.PayloadsRunTogether` | ts/packages/core/src/handle-bidi-socket.ts:280-298 | a unary body is each payload behind those before it |
| `TsBody.StreamingRequestBody` | ts/packages/core/src/handle-bidi-socket.ts:308-324 | one chunk per envelope before the half-close, then the end or the error |
| `TsBody.ConcatBytes` | ts/packages/core/src/wire.ts:100-112 | the one-buffer copy at a running offset is the concatenation, a single chunk included |
| `TsBody.StreamingBodyResplits` | ts/packages/core/src/handle-bidi-socket.ts:308-324 | the body's bytes split again into exactly the envelopes before the first end-stream |
| `TsBody.BodyEndsWell` | ts/packages/core/src/handle-bidi-socket.ts:284-296 | a second headers envelope fails the body exactly if it comes before the end-stream; a clean end of the stream is a half-close |
| `TsBody.WriteResponse` | ts/packages/core/src/handle-bidi-socket.ts:329-458 | every write of the response in order, up to the first that fails |
| `TsBody.IdentityInAnyCase` | ts/packages/core/src/handle-bidi-socket.ts:340-352 | a unary body is marked compressed unless it has no encoding or one that is "identity" in any mix of case |
| `TsBody.WriteBody` | ts/packages/core/src/handle-bidi-socket.ts:371-375 | the handler's chunks are forwarded as they are |
| `TsBody.ResponseIsGrammatical` | ts/packages/core/src/handle-bidi-socket.ts:329-458 | split by a client, the response is the headers, the body with its flag and the end-stream, spelled out, a word of the grammar a Go server writes |

## Left out

- Sockets, dialing, TLS, upgrades and QUIC: a WebSocket is an ordered lossless queue of messages that may fail at any time, a QUIC stream a chunked byte source.
- JSON, protobuf and gzip: abstract pairs of functions; where a result needs them to be inverse it says so.
- Header canonicalisation, multiple values per header and error details: a header is a map from name to one value.
- Timers and deadlines: a context that ends is one event that may happen at any time; `Connect-Timeout-Ms` and the idle timeout are not written or parsed.
- Content negotiation, connect-go dispatch and connect-es handlers: a procedure is an arbitrary list of actions and a final verdict; every procedure exists.
- The procedure's view of its request headers: the server stream keeps them all, pseudo-headers included, and reads only the encodings.
- A missing `callInfo` on a client stream: response headers and trailers are always kept.
- Non-binary WebSocket messages: refused before the model's messages begin.
- Composite transports, option setters, logging, the demo and the node and Cloudflare adapters: one-branch wrappers.
- Fairness and handlers that ignore cancellation: outside what this code decides.
- `options.signal` of the TypeScript server: its teardown is the same method as the loop's, but a run has no such event.
- Backpressure and cancellation of Web Streams: a queue of unbounded length that accepts every chunk.
- MuxConn.MuxConn.CloseStream: for a dedicated connection it reports that the connection is to be closed and does not model the closing handshake.
- MuxSafety.BlockedReadLoopCanBeFreed: says that a freeing step is enabled, not that its thread takes it.
- RpcServer.HandleRPC: takes a failure to write as final, and headers as always marshalling; the timeout header and the choice of codec are not modelled.
- RpcClient.ClientStream.SendHeaders: does not write the `Connect-Timeout-Ms` header, because there is no clock.
- RpcRequests.RequestRoundTrip: needs a connection with enough writes left, as its grammar does.
- MuxConn.Transport.Close: the closing handshake of the socket is not modelled.
- MuxReuse.ClientOrphanIffReused: a stream closed once is taken to be closable again, as the code allows.
- RpcGrammar.RequestGrammar: takes a failure to write as final.
- RpcGrammar.CloseResetsUnfinished: needs a connection with enough writes left; a broken one takes no reset.
- TsServer.MuxedServer.StartStream: what the handler does between the headers and the close callback is not modelled.
- TsServer.MuxedServer.Serve: an exception out of feeding a stream, which would end the loop, does not occur; see the next line.
- TsServer.MuxedServer.CancelStream: an errored stream discards the chunks its handler has not read; the model counts what was fed, not what is read.
- TsServer.MuxedServer.Teardown: discards unread chunks likewise.
- TsClientMux.WebSocketMux.FailEveryStream: discards unread chunks likewise.
- TsRefinement.EveryGoRunIsATsRun: compares what handlers were fed; after a reset a Go handler can still read its queue, a TypeScript one cannot.
- TsServer.MuxedServer.OnFrame: takes feeding a stream to succeed even after its handler stopped reading; what the platform's streams do then is not part of this model.
- TsClient.MessagesStayOnTheirSocket: assumes that a server connection answers only IDs whose headers frame was sent on it.
- TsClientMux.WebSocketMux.OpenStream: the wait for the socket and the registration are two separate events; rejected dials open no stream.
- TsClientMux.WebSocketMux.Route: the readable of a stream accepts every chunk.
- TsBody.ResponseIsGrammatical: takes the header, end-stream and unary payloads to be shorter than 2^32 bytes and the streaming body to be framed as connect-es frames it.
- TsBody.StreamingBodyResplits: takes payloads to be shorter than 2^32 bytes, which every envelope read from the wire is.
