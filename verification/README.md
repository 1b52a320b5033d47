# QuicProxy core: a verified model

This project models the hand-written stream codecs, poll state machines and concurrent protocols of
QuicProxy and proves what they promise, for every input, every schedule and every interleaving. Code
that changes objects step by step is a class whose methods are proved against functions on values; the
properties are lemmas about those functions and about whole runs. Tasks that race are state machines
whose events are single accesses to shared maps, queues and flags.

| files | what they model |
|---|---|
| Wire | bytes, big-endian fields, sequences |
| TargetAddr | addresses and their encoding |
| AnytlsFrames, ReadAhead, FrameReader, UotPackets | the AnyTLS frame format, the cancel-safe read-ahead reader, UDP over TCP |
| AnytlsPadding, AnytlsSession, AnytlsLink, AnytlsProgress | padding, both ends of a session, whole runs from `poll_write` on the client to `poll_read` on the server, and that nothing in them is ever stuck |
| ZeroRtt | 0-RTT streams with replay, under the lazy handshake |
| Vmess | the VMess chunk stream under partial reads and writes |
| ShadowUdp, ContextIds | ShadowQUIC UDP sessions: bindings, early datagrams, context ids |
| DnsCache, DnsFlights, DnsTtl, FakeIp | the DNS response cache, shared queries, record lifetimes, fake addresses |
| Durability, TrafficLedger | the flush protocol of the cache database, the destination-traffic ledger |
| Dial, Ntp, Signals | happy-eyeballs dialing, NTP arithmetic, wake-ups that are not lost |

How the environment enters: a transport is a script of answers (nothing yet, some bytes, an error); a
verdict, a new connection or a partial write of a nested stream is a choice from an oracle; ciphers,
UTF-8, IP literals, number formats and the DNS packet codec are function parameters with the law they
are used under; clock readings, shuffles, padding draws and timeouts are arguments or events.

Where the code does not meet a property on all inputs, a lemma gives the exact condition:

- a target is recovered, in either address format, if and only if its encoding loses nothing, and
  exactly one input makes the server's parser panic, after which the session's readers wait for ever;
- a padded write keeps the receiver in step if and only if every WASTE record in it is of an aligned
  length;
- a schedule without a write sends no handshake, and one with an acknowledged byte does;
- a failed 0-RTT replay loses what was acknowledged, `poll_settled` answers with an error if and only
  if that has just happened, and no caller who has seen no error has lost a byte;
- a VMess caller gets a right report if and only if it returns with the same data, and its reader is
  told of a false end if and only if a chunk was empty;
- a DNS response survives a restart if and only if its row was written and is not empty, or was not
  written and the row there says the same;
- the lifetime limits are kept if and only if the lower one fits 32 bits and is not above what the
  cast leaves of the upper one;
- fake addresses stay in their block if and only if the configured address leaves room for them, as
  the network address does; two are the same, on the second lap and every other, if and only if their
  cursors are congruent modulo the pool, or equal where the cursor is taken as it is;
- the shared map leads to every context id held if and only if no removal is finished for an id held
  again;
- a flush that finds the flag down reports early only while another is on its way;
- a waiter on a key is stranded if and only if it registered on a notifier already rung.

Where code and comments differ the model follows the code: `UDP_CONTEXT_ID_RECONNECT_MARGIN` is
documented as a margin of 256 ids, and the check leaves 258.

## Model

| member | source | states |
|---|---|---|
| TargetAddress.TargetRecovered | src/proxy/mod.rs:51-80 | The server parses back the target the client encoded, whatever follows it in the frame, if and only if the encoding loses nothing: a domain of at most 255 bytes, an IPv6 address without flow label and scope. The encoding has the announced length. |
| TargetAddress.PanicsOnlyOnLoneDomainTag | src/proxy/inbound/anytls.rs:649-698 | `parse_target_from_syn` indexes past the end of its input on exactly one input, the single byte 3. |
| TargetAddress.DecodeIsIncremental | src/proxy/mod.rs:122-168 | `decode` asks for more on every proper prefix of an encoding and, from the whole encoding on, gives the address and its length; a domain that is an IP literal comes back as that address. |
| AnytlsFrames.AppendFrame | src/proxy/anytls_proto.rs:218-226 | A frame is appended whole, or, when its payload exceeds 65535 bytes, refused with the buffer untouched. |
| AnytlsFrames.ParseEncode | src/proxy/anytls_proto.rs:197-226 | Parsing undoes encoding of a frame, whatever follows it. |
| AnytlsFrames.ParseSound | src/proxy/anytls_proto.rs:197-226 | Encoding is canonical: a parsed frame encodes to exactly the bytes consumed. |
| AnytlsFrames.ParseAllSound | src/proxy/anytls_proto.rs:197-215 | The one-shot parse accounts for every byte, and its leftover holds no whole frame. |
| AnytlsFrames.ParseAllEncode | src/proxy/anytls_proto.rs:197-226 | A sequence of encoded frames parses back to itself and parsing goes on with what follows. |
| AnytlsFrames.ParseAllSplit | src/proxy/anytls_proto.rs:197-215 | Parsing a fragment and then its leftover with the next fragment is the one-shot parse of both. |
| AnytlsFrames.StreamReadBuffer.CopyTo | src/proxy/anytls_proto.rs:253-265 | What is handed out followed by what stays is what was pending; as much as fits is handed out. |
| AnytlsFrames.StreamReadBuffer.CopyFrom | src/proxy/anytls_proto.rs:267-270 | The same for a new chunk. |
| ReadAhead.FillConserves | src/utils/read_ahead.rs:24-51 | A fill that succeeds, waits, fails or is cancelled afterwards loses no byte: what left the transport is in the buffer, in order, and it succeeds exactly when enough is buffered. |
| ReadAhead.FillAnswersIff | src/utils/read_ahead.rs:24-51 | What a fill answers is decided by the transport alone: it succeeds if and only if enough bytes come before the transport first stops; otherwise it has taken all of them, and it waits if and only if the transport is not ready, ends cleanly if and only if it ended where it may before any byte, and fails if and only if it broke or ended anywhere else. |
| ReadAhead.ByteStream.PollRead | src/utils/read_ahead.rs:33-37 | A read hands out the next bytes of the transport, at most as many as there is room for. |
| ReadAhead.PollFill | src/utils/read_ahead.rs:24-51 | The loop computes the fill function that `FillConserves` is about. |
| FrameReading.FrameReader.PollReadFrame | src/proxy/anytls_proto.rs:197-215 | One poll of `read_frame` moves the reader as the function does that `PollIsParse` is about. |
| FrameReading.FrameReader.Cancel | src/proxy/anytls_proto.rs:176-196 | Dropping the future forgets only where it was suspended, not a byte. |
| FrameReading.PollIsParse | src/proxy/anytls_proto.rs:197-215 | A frame produced is cut from the front of the bytes; without one, no whole frame was buffered. Where the future was suspended makes no difference. |
| FrameReading.PollAnswersIff | src/proxy/anytls_proto.rs:184-215 | A poll gives the first frame of the bytes at hand if they have one; otherwise it waits if and only if they are the beginning of a frame and the transport is not ready, and fails if and only if the command is unknown or the transport broke or ended. |
| FrameReading.RunAccounted | src/proxy/anytls_proto.rs:184-215 | In every run of arrivals, polls and cancellations each byte is in exactly one place: a frame produced, the buffer, or the transport. |
| FrameReading.FragmentationInvisible | src/proxy/anytls_proto.rs:184-215 | The frames produced, then those in the buffer and transport, are the one-shot parse of everything that arrived, however it was cut up and whenever a read was cancelled. |
| FrameReading.SentFramesArrive | src/proxy/anytls_proto.rs:184-226 | When the encoding of some frames has arrived and been read, exactly those frames were produced and nothing is left. |
| FrameReading.PrefixOfEncoding | src/proxy/anytls_proto.rs:197-226 | A prefix of an encoding parses to a prefix of the frames. |
| UotPackets.NextIsStable | src/proxy/anytls_proto.rs:285-326 | More bytes never change a packet already complete, nor an address type already refused. |
| UotPackets.CutAllSound | src/proxy/anytls_proto.rs:285-312 | Packets and leftover are the bytes, cut; the leftover holds no whole packet. |
| UotPackets.CutAllSplit | src/proxy/anytls_proto.rs:276-312 | Cutting fragment by fragment is cutting at once. |
| UotPackets.DecoderIgnoresFragmentation | src/proxy/anytls_proto.rs:276-312 | In every schedule of pushes and calls, the packets cut then those in the buffer are the one-shot parse of everything pushed, and once a call finds none the buffer is the unparsed suffix. |
| UotPackets.PacketRoundTrip | src/proxy/anytls_proto.rs:41-117 | A packet of an address that loses nothing is cut out whole wherever it stands. For payloads up to 65535 bytes decoding gives back payload and address if and only if there is no address or it loses nothing: a domain of at most 255 bytes, an IPv6 address without flow label and scope. |
| UotPackets.PacketsRoundTrip | src/proxy/anytls_proto.rs:276-359 | A stream of encoded packets is cut and decoded back packet by packet. |
| UotPackets.EncodePacket | src/proxy/anytls_proto.rs:328-338 | A packet is refused exactly when its payload exceeds 65535 bytes. |
| UotPackets.UotReadBuffer.Push | src/proxy/anytls_proto.rs:281-283 | A chunk is appended. |
| UotPackets.UotReadBuffer.NextPacket | src/proxy/anytls_proto.rs:285-312 | The next packet leaves the buffer; otherwise the buffer stays as it is. |
| AnytlsPadding.PayloadThenWaste | src/proxy/outbound/anytls.rs:491-540 | For any drawn sizes the bytes written are the buffer, whole and in order, followed by WASTE records only. |
| AnytlsPadding.WasteLengthsFit | src/proxy/outbound/anytls.rs:512-536 | Sizes in the 16-bit range give WASTE payloads in that range. |
| AnytlsPadding.PaddingInvisible | src/proxy/outbound/anytls.rs:465-544 | For sizes in the 16-bit range the records parse to the buffer's frames followed by WASTE, and dropping WASTE gives back exactly the buffer's frames. |
| AnytlsPadding.RecordsAreCutToSize | src/proxy/outbound/anytls.rs:493-510 | Padding does cut the payload up: while the buffer outlasts the sizes drawn, the i-th record has exactly the i-th size and is the payload at that place. |
| AnytlsPadding.LastIsToppedUp | src/proxy/outbound/anytls.rs:511-525 | The size the payload ends in is topped up to exactly that size when a header still fits. |
| AnytlsPadding.EverySizeIsFilled | src/proxy/outbound/anytls.rs:526-534 | With the payload used up, every size up to the first check mark is filled with a WASTE record of that payload length. |
| AnytlsPadding.CheckMarkEnds | src/proxy/outbound/anytls.rs:495-502 | A check mark ends the padding of a write whose payload is used up, and is nothing before that. |
| AnytlsPadding.SchemeDrawsFit | src/proxy/outbound/anytls.rs:148-164 | A scheme whose bounds fit 16 bits only draws sizes that do. |
| AnytlsPadding.OversizedWaste | src/proxy/outbound/anytls.rs:517-533 | Beyond 65535 the header lies about the length: after one WASTE record the receiver is in step exactly when the number of 65536-byte excesses is a multiple of 7, so for sizes under 458752 exactly when there is none; it takes no frame but WASTE from it. |
| AnytlsPadding.WriteInStepIff | src/proxy/outbound/anytls.rs:465-544 | For any sizes, in the 16-bit range or not, the receiver stays in step through a whole write, at the end of the buffer and of every WASTE record, if and only if every one of them is so aligned, and then it keeps exactly the buffer's frames. |
| AnytlsSession.ClientSession.NextStreamId | src/proxy/outbound/anytls.rs:572-575 | Ids are handed out in turn and wrap at 32 bits. |
| AnytlsSession.ClientSession.WriteWithPadding | src/proxy/outbound/anytls.rs:468-544 | The loop writes exactly the records that `PayloadThenWaste` and `PaddingInvisible` are about, counts the packet, and never switches padding on. |
| AnytlsSession.ClientSession.WriteLoopTurn | src/proxy/outbound/anytls.rs:408-463 | One turn takes a frame, batches while it may, and writes the batch; `AnytlsLink.TurnIsRun` shows it is a run of the session system. |
| AnytlsSession.ClientSession.ReceiveFrame | src/proxy/outbound/anytls.rs:420-441 | A frame taken off the queue is encoded into the buffer; the first PSH ends the initial buffering; one that does not fit ends the loop. |
| AnytlsSession.AnytlsProxyStream.PollWrite | src/proxy/outbound/anytls.rs:1067-1107 | A write queues the first 65535 bytes or fewer as one PSH and reports as many; it waits on a full queue and fails after FIN or a closed session. |
| AnytlsSession.AnytlsProxyStream.PollShutdown | src/proxy/outbound/anytls.rs:1113-1130 | FIN is queued at most once and waits for room. |
| AnytlsSession.WriteAnswersIff | src/proxy/outbound/anytls.rs:1067-1107 | A write of nothing is done at once; any other fails if and only if the stream sent its FIN or the session is closed, waits if and only if the queue is full, and is else acknowledged for as much as a frame holds, with that frame at the end of the queue. |
| AnytlsSession.ShutdownAnswersIff | src/proxy/outbound/anytls.rs:1113-1130 | A shutdown waits if and only if its FIN is still to be queued and the queue is full; when it is done the FIN was queued, now or before, or the session is closed. |
| AnytlsSession.InboundSession.HandleFrame | src/proxy/inbound/anytls.rs:382-475 | Each frame takes the stream table and the readers to the state that the run theorems are about. |
| AnytlsSession.InboundSession.OnPsh | src/proxy/inbound/anytls.rs:403-449 | A PSH is the target, the UDP-over-TCP request or payload, by the stream's state. |
| AnytlsSession.SessionEndsIff | src/proxy/inbound/anytls.rs:324-475 | A frame ends the session if and only if it comes before the settings, is an alert, or is the one target on which parsing panics. No later frame is handled; readers keep what they were given and are then told of the end, except that after the panic nobody clears the table, and a reader whose stream is in it waits for ever. |
| AnytlsSession.AnytlsInboundStream.PollRead | src/proxy/inbound/anytls.rs:55-78 | A read serves the tail of the last chunk, then the next chunk, waits while the stream is there, and is the end once it is gone: the function that `AnytlsLink.ReadAnswersIff` and `AnytlsLink.ReaderIsToldTheTruth` are about. |
| AnytlsLink.EndToEnd | src/proxy/outbound/anytls.rs:408-544 | In every run of a session, whatever the interleaving of streams, batching, padding, fragmentation and pace of the readers, a dispatched TCP stream goes to the target its client asked for and its reader has read a prefix of the bytes `poll_write` acknowledged. |
| AnytlsLink.ReaderMatchesStream | src/proxy/inbound/anytls.rs:382-527 | Every reader belongs to an opened client stream, was dispatched to what that stream's target decodes to, and was given a prefix of its chunks. |
| AnytlsLink.DrainedDelivers | src/proxy/inbound/anytls.rs:382-475 | Nothing is lost: when the path is drained and the stream is still open at the server, the reader was given every acknowledged byte. |
| AnytlsLink.ReadAnswersIff | src/proxy/inbound/anytls.rs:55-78 | A read answers exactly the bytes it takes. Offered room, it waits if and only if the table has the stream and everything given is read, and is the end of the stream if and only if the table does not have it and everything given is read; only a chunk without bytes, which UDP alone can bring, is taken for the end before that. |
| AnytlsLink.AnswersAreRead | src/proxy/inbound/anytls.rs:55-78 | In every run the answers a reader got, joined, are exactly the bytes it has read. |
| AnytlsLink.ReaderIsToldTheTruth | src/proxy/inbound/anytls.rs:55-78 | In every run a reader is told of the end of its stream if and only if the table no longer has the stream and everything given is read, and waits if and only if the table has it and everything given is read. While the session is open the table has the stream exactly until its FIN is processed, and what was given then is every byte acknowledged. |
| AnytlsLink.DrainedEnds | src/proxy/inbound/anytls.rs:55-78 | On a drained path a reader that has read every acknowledged byte, and no other, is told of the end if and only if the client's FIN went out. |
| AnytlsProgress.EverythingCanArrive | src/proxy/inbound/anytls.rs:370-475 | Nothing acknowledged is ever stuck: after every run that nobody disturbed, whatever is queued, buffered, in flight or half read and whoever is blocked, internal steps alone lead to where the stream went to its target, its reader has read every acknowledged byte, and is told of the end if and only if the client's FIN went out. |
| AnytlsProgress.SessionStaysOpen | src/proxy/inbound/anytls.rs:324-475 | In every run that nobody disturbs both ends stay open: every frame the client writes, padding included, is accepted by the server. |
| AnytlsLink.RequestParses | src/proxy/inbound/anytls.rs:530-562 | A UDP-over-TCP request gives back its flag, its destination and whatever came with it. |
| AnytlsLink.UdpEndToEnd | src/proxy/inbound/anytls.rs:530-635 | UDP over TCP: the reader is bound to the requested destination, and the packets its decoder can cut are a prefix of those sent, however the chunks are cut up and even if the first packets come with the request. |
| AnytlsLink.RunInv | src/proxy/outbound/anytls.rs:205-592 | The invariant behind these results holds in every run, and ids stay within the number of events. |
| AnytlsLink.StepKeeps | src/proxy/inbound/anytls.rs:382-527 | Each of the 22 kinds of event keeps the invariant. |
| AnytlsLink.BatchIsRun | src/proxy/outbound/anytls.rs:443-452 | The batching loop is a run of single takes, which touch nothing but the client and its ledger of buffered frames. |
| AnytlsLink.TurnIsRun | src/proxy/outbound/anytls.rs:420-463 | A turn of the write loop is a run of the session system: the client ends where the turn leaves it, the network has got exactly the records the turn wrote, and nothing else changed, so the run theorems speak about the loop. |
| AnytlsLink.PaddingStaysOff | src/proxy/outbound/anytls.rs:473-487 | Once padding is switched off no later event switches it on. |
| AnytlsLink.PaddingStopsAtTheEnd | src/proxy/outbound/anytls.rs:473-487 | Nor is it switched off early: some write before was numbered past the end of the padding scheme then in force. |
| AnytlsLink.PacketsAreNumbered | src/proxy/outbound/anytls.rs:468-490 | Every write made while padding was on has its own packet number, in order. |
| AnytlsLink.FirstWriteHasPayload | src/proxy/outbound/anytls.rs:408-463 | In every run nothing is written before the first payload, so settings, SYN and target go out together with it. |
| AnytlsLink.BatchTakesAll | src/proxy/outbound/anytls.rs:443-452 | A batch is everything queued, up to the size of a batch. |
| ZeroRttReplay.DeliveredExactlyOnce | src/proxy/outbound/shadowquic.rs:854-1013 | After any schedule of polls, verdicts, partial writes and nested replays that succeed, the connection that finally accepts has the handshake and then the acknowledged bytes, in order and once, short only of handshake bytes no write has pushed out; it is shut down exactly when a shutdown was acknowledged; and it has everything if and only if no handshake bytes are held back. |
| ZeroRttReplay.RecordIsComplete | src/proxy/outbound/shadowquic.rs:962-984 | While early, the record kept for a replay is everything acknowledged, at most 64 KiB, with the shutdown. |
| ZeroRttReplay.WithoutWriteNothingIsSent | src/proxy/outbound/mod.rs:399-449 | In every schedule without a write, whatever shutdowns, flushes, reads, verdicts and replays it holds, nothing is acknowledged, the handshake is still held back and the accepting connection has taken nothing. |
| ZeroRttReplay.AcknowledgedByteBringsTheHandshake | src/proxy/outbound/mod.rs:399-449 | In every schedule with an acknowledged byte and no failed replay the accepting connection has the whole handshake and all acknowledged bytes. |
| ZeroRttReplay.WithoutErrorAllIsDelivered | src/proxy/outbound/shadowquic.rs:854-1013 | The same for a guard the caller can see: in every schedule no poll of which answers with an error, the accepting connection has the handshake and the acknowledged bytes, all of them once a byte is acknowledged. |
| ZeroRttReplay.LossIsReported | src/proxy/outbound/shadowquic.rs:915-1013 | No loss is silent: a poll of a stream without a failed replay either answers with an error or leaves none, however deep replays are nested. |
| ZeroRttReplay.SettledErrsIffLost | src/proxy/outbound/shadowquic.rs:915-931 | After the verdict, `poll_settled` answers with an error if and only if a replay has just failed. |
| ZeroRttReplay.FailedReplayLosesTheRecord | src/proxy/outbound/shadowquic.rs:884-931 | It does lose: after an acknowledged write, a rejection and a replay without a new connection, the poll fails and the stream is left with the rejected connection, the only one that took the bytes. |
| ZeroRttReplay.OpEffect | src/proxy/outbound/shadowquic.rs:944-1013 | One poll of any stream appends to what it has accepted exactly what it acknowledges, shuts it down exactly when it says so, and acknowledges no write after a shutdown, as long as no replay has failed. |
| ZeroRttReplay.ReplayEffect | src/proxy/outbound/shadowquic.rs:892-910 | One poll of a replay changes nothing of what was acknowledged; when it ends the new stream has it all, shut down if and only if that was acknowledged. |
| ZeroRttReplay.WithheldEffect | src/proxy/outbound/shadowquic.rs:962-1013 | Before the verdict, what the connection took is recorded and its errors are withheld. |
| ZeroRttReplay.OpIntact | src/proxy/outbound/shadowquic.rs:915-931 | A failed replay is never forgotten by a later poll. |
| ZeroRttReplay.LazyEffect | src/proxy/outbound/mod.rs:400-437 | Under the lazy handshake each poll keeps handshake plus acknowledged bytes accounted for. |
| ZeroRttReplay.LazyWriteEffect | src/proxy/outbound/mod.rs:400-437 | The same for a write that still carries handshake bytes, under every partial write. |
| ZeroRttReplay.ZeroRttStream.Settle | src/proxy/outbound/shadowquic.rs:915-931 | The loop of `poll_settled` computes the function the lemmas are about. |
| ZeroRttReplay.ZeroRttStream.ResolveWith | src/proxy/outbound/shadowquic.rs:884-911 | A verdict empties the record and settles the stream, or starts a replay of it. |
| ZeroRttReplay.ZeroRttStream.PollWrite | src/proxy/outbound/shadowquic.rs:962-984 | `poll_write` is the function that `OpEffect`, `SettledIsConn` and `WritesGetThrough` are about. |
| ZeroRttReplay.ZeroRttStream.PollFlush | src/proxy/outbound/shadowquic.rs:986-996 | The same for `poll_flush`. |
| ZeroRttReplay.ZeroRttStream.PollShutdown | src/proxy/outbound/shadowquic.rs:998-1016 | The same for `poll_shutdown`, which records an early shutdown. |
| ZeroRttReplay.ZeroRttStream.PollRead | src/proxy/outbound/shadowquic.rs:944-959 | The same for `poll_read`, as far as the phases go. |
| ZeroRttReplay.LazyHandshakeStream.PollWrite | src/proxy/outbound/mod.rs:400-437 | `poll_write` is the function `LazyEffect` is about. |
| ZeroRttReplay.LazyHandshakeStream.PollThrough | src/proxy/outbound/mod.rs:389-397 | Reads, flushes and shutdowns go straight to the stream. |
| ZeroRttReplay.ReplayCompletes | src/proxy/outbound/shadowquic.rs:892-910 | Given any connection that takes at least a byte of what it is offered each time, in whatever parts, a rejected stream ends on one that has taken the whole record, and the shutdown if there was one, without using up more answers than it has bytes to send. |
| ZeroRttReplay.SettledIsConn | src/proxy/outbound/shadowquic.rs:962-1013 | Once no level is early or replaying, a poll at any nesting answers, uses up and leaves exactly what a poll of the connection at the end of the chain does, but for a shutdown already acknowledged. |
| ZeroRttReplay.ShutdownIsNotRepeated | src/proxy/outbound/shadowquic.rs:998-1016 | A shutdown already acknowledged is answered at once and not passed on. |
| ZeroRttReplay.AcceptedIsConn | src/proxy/outbound/shadowquic.rs:915-1013 | The same for the very poll that brings an accepting verdict. |
| ZeroRttReplay.EarlyIsConn | src/proxy/outbound/shadowquic.rs:962-1013 | Before the verdict the connection's own answer is passed on, but an error is withheld, and a write that would outgrow the record waits. |
| ZeroRttReplay.SettledWriteTakes | src/proxy/outbound/shadowquic.rs:962-984 | On a settled stream that is not shut down every non-empty write gets at least a byte through, if the connection takes something. |
| ZeroRttReplay.WritesGetThrough | src/proxy/outbound/mod.rs:400-437 | Over schedules under the lazy handshake: writing once for each handshake byte held back and once more gets a byte acknowledged, whatever parts the connection takes. |
| ZeroRttReplay.RejectedWriteGetsThrough | src/proxy/outbound/shadowquic.rs:884-984 | One poll that brings a rejection, a new connection and enough answers replays the record and acknowledges part of the write on top of it. |
| VmessChunks.BytesArriveInOrder | src/proxy/inbound/vmess.rs:492-632 | For every schedule of writes whose caller retries properly and every way the wire arrives, the bytes read are a prefix of those reported as written and no chunk is called malformed; a reader through with the wire of an idle writer has read exactly the bytes reported, with the chunk counters in step. |
| VmessChunks.WriteKeepsSound | src/proxy/inbound/vmess.rs:578-632 | Whatever the transport answers, the wire is the finished chunks and the flushed part of the one in flight, and the reported bytes are the finished chunks. |
| VmessChunks.ReportMatchesIffRetried | src/proxy/inbound/vmess.rs:611-628 | The bytes reported for a chunk are the bytes sent if and only if the caller came back with a buffer that starts with what was in flight. |
| VmessChunks.ReadStep | src/proxy/inbound/vmess.rs:496-569 | One poll hands out the next bytes in order, opens at most one chunk and that under the next counter, never calls a well-formed chunk malformed, and, offered room, reports a false end of stream if and only if the chunk opened is empty. |
| VmessChunks.ReadAnswersIff | src/proxy/inbound/vmess.rs:496-569 | What a poll answers is decided by the bytes at hand and by why the transport stops: it waits if and only if the next length or chunk is not whole and the transport not ready, reports a transport error if and only if it broke then or ended other than between two chunks, closes if and only if it ended there, and calls a chunk too large exactly when its length says so. |
| VmessChunks.CalmNeverBreaks | src/proxy/inbound/vmess.rs:496-569 | On a transport that delivers, in whatever parts and pauses, and neither breaks nor ends, no poll of any run reports a transport error or the end. |
| VmessChunks.WholeChunkIsOpened | src/proxy/inbound/vmess.rs:524-567 | For any wire, written by this writer or not, a whole chunk at hand is opened under the next counter, and is called bad if and only if it is shorter than the tag or does not open. |
| VmessChunks.WholeChunkIsRead | src/proxy/inbound/vmess.rs:496-569 | With the next chunk whole, not empty, and room offered, a reader of what was written hands out at least a byte. |
| VmessChunks.EndsFalselyIffSomethingEmpty | src/proxy/inbound/vmess.rs:496-632 | For every schedule of writes and every arrival, the reader is told of an end that is none if and only if it has opened an empty chunk; never when no call wrote nothing, and, once everything is read, exactly when some call did. |
| VmessChunks.EmptyChunkIffEmptyWrite | src/proxy/inbound/vmess.rs:586-609 | A schedule builds an empty chunk if and only if some call wrote nothing while no chunk was in flight. |
| VmessChunks.EmptyWriteLooksLikeTheEnd | src/proxy/inbound/vmess.rs:590-609 | An empty write becomes a chunk without data, which its reader takes for the end of the stream although more may follow. |
| VmessChunks.ScheduleSound | src/proxy/inbound/vmess.rs:578-632 | The writer stays sound over whole schedules. |
| VmessChunks.FlushAnswersIff | src/proxy/inbound/vmess.rs:611-628 | A write is done if and only if the transport takes all that is left of the chunk before it declines; otherwise all it took is sent, and the write fails if and only if the transport refuses then, and waits if and only if it does not. |
| VmessChunks.WriteGetsThrough | src/proxy/inbound/vmess.rs:578-632 | A write on an idle writer whose transport takes enough reports every byte that a chunk holds. |
| VmessChunks.VmessServerStream.BuildData | src/proxy/inbound/vmess.rs:586-609 | Building frames and seals the front of the buffer and counts the chunk. |
| VmessChunks.VmessServerStream.PollWrite | src/proxy/inbound/vmess.rs:578-632 | `poll_write` is the function `WriteKeepsSound` is about. |
| VmessChunks.VmessServerStream.FlushData | src/proxy/inbound/vmess.rs:611-628 | The flushing loop sends the chunk from where it stopped until it is out, the transport waits, or it fails. |
| VmessChunks.VmessServerStream.PollRead | src/proxy/inbound/vmess.rs:496-569 | `poll_read` is the function `ReadStep` and `ReadAnswersIff` are about. |
| VmessChunks.VmessServerStream.OpenChunk | src/proxy/inbound/vmess.rs:534-557 | A chunk is cut out and opened; the counter moves even when the tag is wrong. |
| VmessChunks.OpenSealed | src/proxy/outbound/vmess/vmess_impl/cipher.rs:81-126 | Opening a sealed chunk under the same counter gives its plaintext and moves the counter as sealing did. |
| ShadowUdp.EachDatagramIsInOnePlace | src/proxy/shadowquic_udp.rs:509-619 | In every interleaving each datagram that arrived is in exactly one place: in the hands of the loop that read it, in one waiting buffer, in the hands of that buffer's task, delivered, or dropped; no buffer or delivery log holds it twice. |
| ShadowUdp.DroppedForAReason | src/proxy/shadowquic_udp.rs:509-619 | The account of drops: in every interleaving a dropped datagram was refused itself, by a limit, an id its receiver does not know or a full or closed queue, or was left behind in a buffer whose task had given up before, because it timed out, was closed, or met one of those. |
| ShadowUdp.WaitedIsDelivered | src/proxy/shadowquic_udp.rs:577-612 | Datagrams that came before their binding are handed on: with the id bound and entered and room at the receiver, the task that seeks it finds it, and draining delivers the whole buffer, in order, to that receiver with that target; none is dropped. |
| ShadowUdp.BoundIsDelivered | src/proxy/shadowquic_udp.rs:509-532 | A datagram whose id is bound and entered, with room at the receiver, is delivered at once. |
| ShadowUdp.EarlyIsBuffered | src/proxy/shadowquic_udp.rs:534-575 | One that comes before its binding waits, unless a limit is reached: in a new buffer with a task of its own, or behind those that wait already. |
| ShadowUdp.QueueHoldsTheUnread | src/proxy/shadowquic_udp.rs:280-301 | In every interleaving a receiver's queue holds what was delivered to it and not read yet: each delivery takes one place and each read frees one. |
| ShadowUdp.DeliveriesAreBoundAndLimitsHold | src/proxy/shadowquic_udp.rs:280-301 | Every delivered datagram was bound when fed, in the sense below; at most 1024 contexts wait, with at most 8 datagrams each, and at most 64 unread deliveries a receiver. |
| ShadowUdp.DeliveredAsBoundWhenFed | src/proxy/shadowquic_udp.rs:280-301 | For every delivered datagram there is a moment of the run at which it had arrived, was not delivered yet, was in the hands of whoever feeds it to the receiver that got it, and that receiver had its context id bound to the very target it was delivered with; the next event is the lookup of that target. |
| ShadowUdp.SharedReceiversHoldTheirIds | src/proxy/shadowquic_udp.rs:303-337 | A receiver in the shared map holds that id itself once it has no removal of it half way. |
| ShadowUdp.RemovalsAreOwn | src/proxy/shadowquic_udp.rs:323-337 | Removing one receiver's id never touches a binding of another receiver. |
| ShadowUdp.RemovalRemoves | src/proxy/shadowquic_udp.rs:323-337 | A removal that nothing interrupts takes the id from its receiver, and from the shared map where that led to it. |
| ShadowUdp.BindBinds | src/proxy/shadowquic_udp.rs:303-321 | A bind that nothing interrupts leaves the id with its receiver and target, and the shared map leading there. |
| ShadowUdp.StepEnteredIff | src/proxy/shadowquic_udp.rs:263-337 | While the shared map leads to every id held, or is about to, a step keeps it so if and only if it is not the second half of a removal of an id its receiver holds again. |
| ShadowUdp.EnteredThroughoutIff | src/proxy/shadowquic_udp.rs:263-337 | Throughout a run of binds and removals the shared map leads to every id held, or is about to, if and only if no such removal is ever finished. |
| ShadowUdp.HeldExactlyWhenEntered | src/proxy/shadowquic_udp.rs:263-337 | In every interleaving of all tasks in which no id is bound by a receiver that has a removal of it half way, a receiver holds an id exactly when the shared map leads to it there, once its binds and removals are through. |
| ShadowUdp.IdCanOutliveItsEntry | src/proxy/shadowquic_udp.rs:263-274 | Without that guard it fails: when two streams of one id end around a new bind, the receiver keeps an id the shared map no longer leads to. |
| ShadowUdp.DepartsFromOwnEntry | src/proxy/shadowquic_udp.rs:610-612 | The unconditional removal at the end of a buffer's task only ever removes its own entry. |
| ShadowUdp.BindKeepsBound | src/proxy/shadowquic_udp.rs:303-337 | Every step of binding and removing keeps the shared map within what receivers hold. |
| ShadowUdp.StepKeepsInv | src/proxy/shadowquic_udp.rs:204-619 | Every event of every task keeps the whole invariant; that tasks get on is `WaitedIsDelivered`, `EarlyIsBuffered` and `DroppedForAReason`. |
| ShadowUdp.Receivers.BindContextId | src/proxy/shadowquic_udp.rs:303-321 | An id in use is refused with nothing changed; a free one is bound in both maps. |
| ShadowUdp.Receivers.Clean | src/proxy/shadowquic_udp.rs:323-337 | The receiver gives up every id it holds, in the shared map only where the entry is its own; nothing else changes. |
| ShadowUdp.DatagramLoop.HandleDatagram | src/proxy/shadowquic_udp.rs:509-619 | The whole call is four steps of the interleaved system, so the run theorems speak about it. |
| ShadowUdp.DatagramLoop.FeedDatagram | src/proxy/shadowquic_udp.rs:280-301 | A datagram is delivered with its bound target unless the id is unknown or the queue full or closed. |
| ShadowUdp.DatagramLoop.StoreDatagram | src/proxy/shadowquic_udp.rs:534-575 | A datagram without receiver is buffered within the limits, or dropped; the first of a context starts a task. |
| ContextIds.IdsAreDistinct | src/proxy/shadowquic_udp.rs:684-707 | Over all sessions of a connection two cells share an id exactly when their draws are a whole number of counter wraps apart; up to the first wrap ids are pairwise distinct. |
| ContextIds.IdsAreInRange | src/proxy/shadowquic_udp.rs:684-707 | The id of every cell is the number of its draw modulo the wrap; it lies in 1..65535 exactly when that number is no multiple of the wrap, so always before the first one. |
| ContextIds.IdsAreStable | src/proxy/shadowquic_udp.rs:684-707 | A cell that holds an id keeps it. |
| ContextIds.CellFilledIff | src/proxy/shadowquic_udp.rs:684-707 | A cell that drew a number holds it from then on if and only if the number fits 16 bits and the control stream took it; otherwise it stays empty and may draw again. No other cell changes. |
| ContextIds.DrawsWithinRoomFit | src/proxy/shadowquic_udp.rs:691-703 | Draws within the room left all give ids that fit, whoever makes them. |
| ContextIds.RoomIsExact | src/proxy/shadowquic_udp.rs:691-703 | The first draw beyond the room does not. |
| ContextIds.CheckedConnectionHasRoom | src/proxy/outbound/shadowquic.rs:608-637 | A connection that passes the capacity check has at least 258 successful draws left at that moment. |
| ContextIds.OpenWithCapacity | src/proxy/outbound/shadowquic.rs:608-637 | Of two connections tried, the first with room is chosen; it fails exactly when neither has it. |
| ContextIds.Counter.FetchAdd | src/proxy/shadowquic_udp.rs:691-692 | The counter wraps at 32 bits. |
| ContextIds.UdpPacket.GetSendContextId | src/proxy/shadowquic_udp.rs:684-707 | An id once made is given again without a draw; a failed attempt uses a number up and leaves the cell empty. |
| DnsCaching.CacheIsOneMap | src/dns/cache.rs:92-148 | Memory and disk together answer every get as one expiring map would, across any sequence of gets, sets, removals and restarts on a clock that never goes back; memory equals disk and stays within 2048 entries. |
| DnsCaching.GetReturnsLastSet | src/dns/cache.rs:92-139 | What a get returns is the response of the last set of its key before it, not removed since and not expired. |
| DnsCaching.StepRefines | src/dns/cache.rs:92-148 | One operation on memory and disk does to the cache what it does to the simple map. |
| DnsCaching.RowRoundTrip | src/dns/cache.rs:104-127 | A stored response comes back if and only if it is not empty. |
| DnsCaching.AfterRestart | src/dns/cache.rs:92-129 | For every cache, what a get answers after a set of its key and a restart: without a disk write exactly what it would have answered without the set; with one, the entry set if it is fresh and not empty, and otherwise nothing. |
| DnsCaching.SetSurvivesRestartIff | src/dns/cache.rs:92-129 | The entry set is answered after a restart, while fresh, if and only if its row was written and is not empty, or was not written and the row already there says the same. |
| DnsCaching.SetIsAnsweredBeforeRestart | src/dns/cache.rs:92-129 | Before the restart it is answered whatever became of its row. |
| DnsCaching.FailedWriteRevives | src/dns/cache.rs:120-129 | In particular, when the row cannot be written a restart brings a fresh earlier response back. |
| DnsCaching.RememberAgrees | src/dns/cache.rs:139-148 | Remembering adds the one entry, perhaps drops others, and keeps to the bound. |
| DnsCaching.DnsCache.Lookup | src/dns/cache.rs:92-118 | `get` is the function `StepRefines` is about. |
| DnsCaching.DnsCache.Store | src/dns/cache.rs:120-129 | `set` likewise. |
| DnsCaching.DnsCache.Forget | src/dns/cache.rs:131-137 | `remove` likewise. |
| DnsCaching.DnsCache.RememberEntry | src/dns/cache.rs:139-148 | `remember` is the function `RememberAgrees` is about. |
| DnsCaching.RememberForgetsOnlyWhenFull | src/dns/cache.rs:139-148 | Only a full memory forgets, and it keeps every fresh entry unless all of them are fresh. |
| SingleFlight.OneLeaderPerKey | src/dns/cache.rs:151-160 | In every run a key has at most one leader whose flight is in the map. |
| SingleFlight.InFlightExactlyWhileLed | src/dns/cache.rs:47-71 | A key is in flight exactly while some caller leads it and has not taken its flight out of the map. |
| SingleFlight.FollowersShareOrAreReleased | src/dns/cache.rs:52-72 | A follower waits only while its leader lives or is between taking the flight out of the map and sending the outcome; its wait ends with the leader's result, or an error in its place, or a release; it queries upstream itself only after a release. |
| SingleFlight.AloneOnlyAfterASecondMiss | src/dns/mod.rs:627-656 | In every run a caller that goes upstream without leading looked into the cache in vain twice, and at the second look had been released from the flight it followed. |
| SingleFlight.RepliesCarryTheCallersId | src/dns/mod.rs:434-466 | A packet from the cache or a shared flight carries the id of the caller's own query; what is in it is `CachedReplyWasStored`, `SharedReplyIsLeaders` and `UpstreamReplyIsOwn`. |
| SingleFlight.CachedReplyWasStored | src/dns/mod.rs:445-466 | In every run a reply from the cache carries the caller's own id and the body found cached for its question at one of its looks, which an earlier answer from upstream to a caller of the same question, worth keeping, had brought. |
| SingleFlight.CacheIsLastStored | src/dns/mod.rs:686-710 | In every run the cache holds exactly the last answer stored for a question and not expired since. |
| SingleFlight.UpstreamReplyIsOwn | src/dns/mod.rs:634-710 | In every run a reply from upstream is what the caller's own query brought, body, id and failure included. |
| SingleFlight.SharedReplyIsLeaders | src/dns/cache.rs:52-72 | In every run a shared reply is what the leader's own query brought, under the follower's id; an error stands in its place only if the leader failed to build the outcome it shares. |
| SingleFlight.QuestionStays | src/dns/mod.rs:610-626 | In every run a caller keeps the question and id it came with. |
| SingleFlight.LetGoForAReason | src/dns/cache.rs:47-72 | In every run a flight ends without an outcome only when its leader was cancelled, found the answer cached after all, or had no follower when it had its answer. |
| SingleFlight.LeaderQueriesAfterASecondMiss | src/dns/mod.rs:634-656 | In every run a leader queries upstream only after two misses, the second one as the leader. |
| SingleFlight.LookLeads | src/dns/mod.rs:445-458 | Where a look leads: with the answer there the caller is done, a leader gives up its flight; without it a caller goes on to join, a leader to query, one that was released to query on its own. |
| SingleFlight.CancelledStaysSo | src/dns/cache.rs:47-72 | In every run a cancelled caller is never answered; it leaves after letting go of the flight it led. |
| SingleFlight.EveryCallerCanFinish | src/dns/mod.rs:610-684 | Nobody waits for ever: wherever a run has led, each caller can finish by its own steps, after those of the leader it follows, if it does. |
| SingleFlight.StepKeepsInv | src/dns/mod.rs:610-684 | Every event of every caller, cancellation included, keeps leaders, flights and callers in agreement. |
| DnsTtl.ServedWithinClampedTtl | src/dns/mod.rs:383-466 | End to end: a record served from the cache ends no later than its packet was stored plus the smallest clamped lifetime over all three sections, which no stored record undercuts, and is shortened no further than that takes. |
| DnsTtl.ServedRecordEndsInTime | src/dns/mod.rs:434-466 | A served packet carries the asker's id and no record outlives the entry's expiry, counted from the clock reading that found it fresh; counted from the second reading, exactly when that has not passed the expiry. A record is left alone or ends at the expiry. |
| DnsTtl.StoredIff | src/dns/mod.rs:690-705 | A packet is kept, for the least lifetime of its records, if and only if it has a record and none is clamped to nothing. |
| DnsTtl.LimitsKeptIff | src/dns/mod.rs:394-407 | Every lifetime is clamped to within the configured limits if and only if the lower one, when there is one, is within 32 bits and at most what the cast leaves of the upper one. |
| DnsTtl.InsideUnchangedIff | src/dns/mod.rs:394-407 | Every lifetime already within the configured limits is left alone if and only if the upper one, when there is one, survives the cast or is cast to the longest lifetime, or no lifetime reaches the lower one. |
| DnsTtl.LowerLimitWrapsAround | src/dns/mod.rs:395-397 | For instance, a lower limit of a multiple of 2^32 seconds is no limit at all. |
| DnsTtl.UpperLimitWrapsAround | src/dns/mod.rs:401-406 | And an upper limit of such a multiple takes every lifetime to 0, whatever the lower one says. |
| DnsTtl.MinTtlIsLeast | src/dns/mod.rs:383-416 | The minimum is met by a record and undercut by none. |
| DnsTtl.Response.ApplyTtl | src/dns/mod.rs:383-416 | One pass clamps every record of the three sections and returns the least lifetime over all of them. |
| DnsTtl.Response.CapTtls | src/dns/mod.rs:422-431 | Every record of the three sections is capped. |
| DnsTtl.ClampSection | src/dns/mod.rs:388-413 | The loop over one section clamps each record and carries the minimum on. |
| FakeIp.AnswersAreDistinctAndReversible | src/dns/mod.rs:1134-1194 | In any run within the pool different domains get different addresses, a repeated question the same, and the address leads back to the domain, trimmed; to the very domain exactly when that is not empty and has no blanks around it. |
| FakeIp.AnswersAreStable | src/dns/mod.rs:1134-1164 | An answer once given stays the same in every later run. |
| FakeIp.AnsweredIff | src/dns/mod.rs:1134-1164 | A question is answered if and only if it was before or the next cursor gives an address; a cursor is drawn exactly for a new question. |
| FakeIp.InsideIsAnswered | src/dns/mod.rs:1109-1164 | In a block that every cursor stays inside of, every question gets an address of the block. |
| FakeIp.InsideIffAligned | src/dns/mod.rs:1109-1127 | IPv4, and IPv6 prefixes over 64: every address lies in the block if and only if the configured address is the network address. |
| FakeIp.InsideIffRangeFits | src/dns/mod.rs:1119-1132 | IPv6 prefixes up to 64: every address lies in the block if and only if a whole cursor range fits behind the configured address, as it does when aligned. |
| FakeIp.SameAddressIff | src/dns/mod.rs:1109-1132 | Two cursors give the same address if and only if they are congruent modulo the pool, or, for IPv6 prefixes up to 64, equal. |
| FakeIp.AnswersCollideIff | src/dns/mod.rs:1134-1194 | In every run, past the pool too, two domains have the same address if and only if their cursors are so congruent, and the address leads back, trimmed, to some domain that has it. |
| FakeIp.CursorsDiffer | src/dns/mod.rs:1109-1132 | So within the pool different cursors give different addresses. |
| FakeIp.SecondLapRepeats | src/dns/mod.rs:1109-1127 | And one pool size later the addresses repeat. |
| FakeIp.RestartKeeps | src/dns/mod.rs:1083-1095 | A restart loads the cursors that were saved. |
| FakeIp.ResolveKeeps | src/dns/mod.rs:1134-1164 | A new answer disturbs none of the earlier ones. |
| FakeIp.FakeIpDns.ResolveInternal | src/dns/mod.rs:1134-1164 | `resolve_internal` is the function these results are about. |
| FakeIp.FakeIpDns.NextCursor | src/dns/mod.rs:1091-1107 | A cursor is drawn once and its successor saved. |
| CacheDurability.UndurableWritesAreCovered | src/cache/redb_store.rs:37-73 | Over every interleaving of commits, flushes, failed flushes and crashes, each single committed write that is not durable yet is covered by the flag, by its own committer who still owes it, or by an unfinished flush that took the flag after that write was committed. |
| CacheDurability.CleanDatabaseSurvivesCrash | src/cache/redb_store.rs:37-73 | A crash leaves a prefix of the committed writes, with every write nobody covers in it; a clean, quiet database loses nothing. |
| CacheDurability.DurableWritesStay | src/cache/redb_store.rs:44-66 | Durable writes survive everything, and without a crash no committed write is lost or reordered. |
| CacheDurability.FlushAloneIsDurable | src/cache/redb_store.rs:51-66 | A flush that runs alone and succeeds leaves durable every write whose committer was through when it began, whether it found the flag up or down and whatever other committers still owe. |
| CacheDurability.FlushGetsThrough | src/cache/redb_store.rs:51-66 | With the flag up and nobody else flushing, a flush makes every write durable and leaves the flag down; when its commit fails the flag goes back up and nothing has changed. |
| CacheDurability.MarkedIsFlushable | src/cache/redb_store.rs:44-66 | In every interleaving a committer that has put the flag up is done with its write: until the next crash it is durable, or the flag is up, or a flush that found it has not finished. |
| CacheDurability.EarlyReportNeedsAnotherFlush | src/cache/redb_store.rs:31-66 | A flush that finds the flag down reports success early about a write whose committer was through only if another flush found that write and has not finished. |
| CacheDurability.SecondFlushMayReportEarly | src/cache/redb_store.rs:31-66 | Such a flush there can be when two run at once, which is what the lock is for. |
| CacheDurability.SharedDb.CommitCacheWrite | src/cache/redb_store.rs:44-48 | A commit is visible at once and leaves the flag up. |
| CacheDurability.SharedDb.Flush | src/cache/redb_store.rs:51-66 | A successful flush leaves everything durable and the flag down; a failed one leaves the flag up. |
| TrafficLedger.LedgerBalances | src/proxy/observe.rs:604-690 | For any interleaving of closes, flushes and drains, a domain's bytes over all connections counted, each once, are the bytes drained plus those in the map, the table and the batch being moved, as long as their sum fits the counters; only a failed merge loses any. |
| TrafficLedger.StepConserves | src/proxy/observe.rs:740-769 | Every step moves bytes without making or losing any. |
| TrafficLedger.StepCountsOnce | src/proxy/observe.rs:604-612 | A connection is counted at most once. |
| TrafficLedger.OpenedIsAccounted | src/proxy/observe.rs:604-690 | In every interleaving nothing a connection has moved is forgotten: it is still open with it, on the way to being counted, or counted. |
| TrafficLedger.ClosedIsCounted | src/proxy/observe.rs:604-648 | A connection closed with traffic is counted with it, or about to be, whatever happens later; one closed without is just forgotten. |
| TrafficLedger.DrainReturnsAll | src/proxy/observe.rs:740-769 | A drain that meets nobody returns every byte of the table and the map and leaves none. |
| TrafficLedger.FlushMovesAll | src/proxy/observe.rs:655-690 | A flush that meets nobody moves every byte of the map into the table. |
| TrafficLedger.MergeAllAdds | src/cache/redb_store.rs:279-313 | Merging a batch adds exactly its bytes, domain by domain, however often a domain occurs. |
| TrafficLedger.MergeAllIsMergeLedger | src/cache/redb_store.rs:279-313 | Merging the items of a batch one by one, in any order, is the one step `LedgerBalances` speaks of. |
| TrafficLedger.MergeAllInOneStep | src/cache/redb_store.rs:279-313 | So it is when a domain occurs more than once, saturation included: merging item by item is merging what the items merge to. |
| TrafficLedger.MergeAdds | src/proxy/observe.rs:131-141 | Absorbing an entry adds its bytes, short of saturation. |
| TrafficLedger.Table.MergeEntries | src/cache/redb_store.rs:279-313 | The loop merges every item, and each domain's bytes grow by the batch's. |
| TrafficLedger.Table.DrainEntries | src/cache/redb_store.rs:318-340 | Every row is returned and none is left. |
| TrafficLedger.LatestAddressWins | src/proxy/observe.rs:131-141 | The last address named for a domain is kept, items without one do not erase it, and the activity time never goes back. |
| Dialing.RaceOutcome | src/proxy/outbound/dial.rs:106-157 | On a non-empty list attempts are always a prefix of it, each entry at most once; some attempt runs while the race is open; it is won by an attempt that was started and connected; it is lost only when every entry failed, each named exactly once. |
| Dialing.WokenTracked | src/proxy/outbound/dial.rs:128-156 | Every turn of the loop keeps this; an attempt that connects wins at once, and a delay or a failure starts exactly one more attempt while any is left. |
| Dialing.EveryWakeStartsOne | src/proxy/outbound/dial.rs:128-156 | While the race is open, every delay that passed and every attempt that failed has started one more attempt, until all were started. |
| Dialing.FirstToConnectWins | src/proxy/outbound/dial.rs:128-156 | The first attempt under way to connect wins at once, whatever comes after; each that fails before is recorded, in the order of the failures. |
| Dialing.ConnectAny | src/proxy/outbound/dial.rs:106-157 | The loop is the race the lemmas are about, answers as `combine_errors` does, keeps the failed-address bound, and forgets a connected address's failure. |
| Dialing.OrderIsInterleavingByHealth | src/proxy/outbound/dial.rs:82-101 | The order is a permutation of the addresses. Each index of the family interleaving has its place: an address that failed recently after every one that did not, and two of the same health in the order of the interleaving. |
| Dialing.InterleaveAt | src/proxy/outbound/dial.rs:88-97 | The families alternate, the preferred one first, while both last; then the rest follows. |
| Dialing.InterleaveAddrs | src/proxy/outbound/dial.rs:88-97 | The loop over the two iterators is that interleaving. |
| Dialing.Named | src/proxy/outbound/dial.rs:160-170 | Several failures are listed with their addresses, each once and in order. |
| Dialing.FailedAddrs.MarkFailed | src/proxy/outbound/dial.rs:65-73 | A mark is fresh, the bound of 1024 holds, other marks are only ever dropped, and fresh ones only when none is stale. |
| Dialing.FailedAddrs.MarkConnected | src/proxy/outbound/dial.rs:75-77 | A connected address no longer counts as failed; the others stay. |
| Ntp.RoundTrip | src/utils/ntp.rs:316-338 | Converting to the NTP format and back loses 0 or 1 ns in reach of the era rule (Unix seconds below 4233462144), none exactly when the nanoseconds are a multiple of 5^9; beyond it the second is wrong. |
| Ntp.OffsetError | src/utils/ntp.rs:268-303 | The computed offset differs from the true one by at most half the total network delay plus 1.5 ns, and by at most half the difference of the delays plus 1.5 ns. |
| Ntp.AcceptedIff | src/utils/ntp.rs:268-303 | A reply is taken if and only if it is long enough, in server mode, synchronized, of stratum 1 to 15, an echo of the request, and of an offset in range. |
| Ntp.EraRule | src/utils/ntp.rs:325-338 | The second read back is the one written exactly in reach of the era rule. |
| Ntp.ExactFraction | src/utils/ntp.rs:316-338 | A fraction of a second is exact in 32 bits if and only if its nanoseconds are a multiple of 5^9. |
| SessionClosing.NoWaiterIsStranded | src/proxy/mod.rs:354-399 | In every interleaving a waiter parked without a wake-up on a closed session has a closer that set the flag and has still to notify; so none is left once close has finished. |
| SessionClosing.ClosedWaitersDoNotPark | src/proxy/mod.rs:378-394 | Once closed, no waiter parks again. |
| SessionClosing.ClosedIffSomebodyCloses | src/proxy/mod.rs:354-376 | In every interleaving the session is closed exactly when some closer has set the flag. |
| SessionClosing.NobodyReturnsEarly | src/proxy/mod.rs:378-394 | In every interleaving no waiter has returned from a session still open. |
| SessionClosing.WaitersReturnAfterClose | src/proxy/mod.rs:354-399 | In every interleaving, once a close has finished, each waiter not given up can return by steps of its own, whatever it was doing. |
| KeyedSignals.NoWaiterIsStranded | src/utils/keyed_notify.rs:26-68 | The same for waiters on a key, in every interleaving where the entry is removed only after the condition holds. |
| KeyedSignals.LeavesForAReason | src/utils/keyed_notify.rs:26-68 | In every interleaving a waiter leaves only because it saw the condition hold or timed out. |
| KeyedSignals.FulfilledWaiterLeaves | src/utils/keyed_notify.rs:26-68 | Once the condition holds, a waiter that is not stranded can leave by steps of its own. |
| KeyedSignals.StrandedIffRegisteredTooLate | src/utils/keyed_notify.rs:26-68 | In every interleaving, that one or not, once a notification after the condition is through a waiter is parked without a wake-up if and only if it registered on a notifier already out of the map and rung. |
| KeyedSignals.TooLateIsNeverRung | src/utils/keyed_notify.rs:26-68 | A waiter that registered on such a notifier is never notified, however often the key is. |
| KeyedSignals.TimedOutWaiterStrandsAnother | src/utils/keyed_notify.rs:57-67 | It does happen: a waiter that times out removes and rings the notifier another is about to register on. |

## Left out

- The download direction of AnyTLS, SYNACK and ALERT replies, heartbeats sent back by the server, session reuse and the authentication packet: the upload direction shows the same queue, codec and routing.
- Wrap-around of AnyTLS stream ids after 2^32 streams: runs are shorter than that.
- AnytlsPadding.WriteInStepIff: in step means at every record boundary; what a receiver that fell out of step makes of later records, and whether it happens to end in step, is left open.
- UTF-8 repair: text cut off within a character is taken to grow by at most two bytes when repaired, which `UotPackets.PacketRoundTrip` needs to rule out that a cut-off domain is repaired to the whole one.
- Padding sizes that do not fit a signed 64-bit integer: sizes are natural numbers or the check mark.
- AnytlsProgress.EverythingCanArrive: undisturbed means that neither end is stopped, the transport neither breaks nor ends, and targets, packets and settings fit a frame; the lemma shows that the way to the end is open at every moment, not that a scheduler takes it.
- UDP readers: `recv_from` is modelled by what it reads and by the decoder, not by the packet it hands out at each call.
- TLS, QUIC, JLS, hashing and AEAD internals: ciphers are functions with an inverse law.
- Waking of tasks (`wake_by_ref`, wakers): a poll may come at any time; only the signals of Signals model who is woken.
- ZeroRttReplay.ZeroRttStream.PollRead: models the effect of a read on the phases and on writing, not the bytes it hands to the caller, which come from the connection as they are.
- ZeroRttReplay.DeliveredExactlyOnce: speaks of chains of replays that succeed; `ZeroRttReplay.WithoutErrorAllIsDelivered` gives a guard the caller can see, and `ZeroRttReplay.FailedReplayLosesTheRecord` what happens otherwise.
- VmessChunks.BytesArriveInOrder: asks the caller to return with the same data after a pending write, as `AsyncWrite` demands; `VmessChunks.ReportMatchesIffRetried` shows it is needed.
- The VMess request and response headers: key derivation is cryptography.
- ShadowUdp: QUIC stream resets and the payload parsing of unistream workers; their removal of bindings is modelled.
- ShadowUdp.DeliveredAsBoundWhenFed: the binding is there when it is looked up; it may be gone when the datagram is queued, as in the source.
- DnsCaching.CacheIsOneMap: `get` and `set` are atomic, disk operations succeed and responses are not empty; the lemmas beside it show what fails otherwise.
- Interleavings inside one `DnsCache::get` or `set`: a racing set can leave memory and disk apart until the entry expires.
- A cached response that does not parse: the codec is taken as lossless.
- DNS wire parsing, upstream transports and rule matching.
- FakeIp.AnswersAreDistinctAndReversible: calls follow one another; two racing first questions for one domain can draw two cursors.
- An address addition that overflows panics in a checked build and wraps in a release build; the model gives no answer there.
- TrafficLedger: the threshold of 256 only says when a flush begins; the model lets one begin at any time.
- TrafficLedger.LedgerBalances: `last_active`, address and outbound tag are not part of this law; `TrafficLedger.LatestAddressWins` speaks of the first two.
- Dialing: the clock stands still during one race, so a mark made in it is fresh at its end.
- Ntp: the retry delay and the client loop are shallow.
- KeyedSignals.NoWaiterIsStranded: asks that no removal comes before the condition; `KeyedSignals.StrandedIffRegisteredTooLate` says what happens in all other runs. A stranded waiter's own timeout still wakes it.
- Memory orderings: atomics and notifications are taken as sequentially consistent.
- Process start-up, configuration, HTTP interfaces, selectors, pools, routers and user lists.
