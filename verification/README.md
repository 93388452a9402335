# proxygo in Dafny

A model of the parts of proxygo, a Minecraft TCP/UDP proxy, that hold state or
translate bytes, with proofs of what they keep. `dafny verify dfyconfig.toml`
checks the whole project.

| module | models |
|---|---|
| `Bytes`, `Common` | fixed-width integers and stock definitions |
| `Varint`, `McProto`, `Uuid` | the varint decoders and encoder, frames, handshake and login start, and the shape of the offline UUID |
| `Streams`, `Forwarding` | readers that hand out arbitrary chunks, writers that may fail part way, the pipe, the forwarding preamble, and the client-to-backend path end to end |
| `Ppv2` | the PROXY protocol version 2 header (HAProxy, "The PROXY protocol, Versions 1 & 2", section 2.2) |
| `IpTracker`, `ConnLifecycle` | the per-IP counter, and every interleaving of accept loops, pipe goroutines, `closeBoth` and force-close |
| `UdpSessions`, `UdpRate` | the UDP session table with its reader timeouts, and the packet limit shared by several forwarders |
| `RateWindow`, `RateLimiter` | the pruned one-second buckets, and the command limiter |
| `Stats` | the flusher and the hourly rows |
| `Manager` | the backend table and its stored rows |
| `Tokenizer` | the command splitter |

Sequential code is a method, on a class where the source updates an object, and
is proved equal to a function of its inputs or old state. Concurrent code is a
state machine whose actions are what one goroutine does between two points
where another may run; `Reachable` and `Run` statements then range over every
interleaving. The class methods next to a machine are the same code run without
interruption; their contracts say that from where the machine stands they end
where its actions end.

## What does not hold as documented

The code is modelled as it is. Where it falls short of its comments, or of what
a reader would expect, a lemma gives the failing case and, where there is one,
the exact condition under which the property holds.

- Bungee forwarding is transparent for other traffic only if its first bytes
  frame, and after a login handshake the next bytes too; otherwise the
  connection is closed (`Forwarding.FallbackIsTransparentIff`,
  `FramingErrorIsFatal`; the comment at internal/proxy/proxy.go:401-402 promises more).
- `MarshalHandshake` does not preserve everything but the host verbatim
  (pkg/mcproto/mcproto.go:120-121): it normalises varint spellings and drops what
  follows the intent, and keeps the bytes exactly when there is neither to do
  (`McProto.FrameIsKeptIff`, `TrailingBytesAreDropped`). Its frame is readable
  only within the frame limit (`ReadMarshalled`). A host with a NUL of its own
  gives the backend extra fields (`Forwarding.BackendReadsFields`).
- `Marshal` indexes past its buffer for an unspecified family, which `writePPv2`
  asks for unless the remote and the local address of the client's socket are
  TCP addresses of one family; nothing recovers, so the process ends
  (`Ppv2.MarshalSucceedsIff`, `Forwarding.Forward`, `Ppv2NeedsOneFamily`).
  `Size()` is two less than the encoded length (`Ppv2.SizeIsTwoShort`).
- `ReadHeader` does not look at the version (`Ppv2.VersionIsIgnored`), although
  section 2.2 has a receiver refuse any other than 2, and what it accepts need
  not be `Valid` (`AcceptedIsValidIff`).
- The per-IP maximum is exact only with one accept loop (`ConnLifecycle.MaximumIsACapIff`).
- UDP sessions do not "expire after UDPSessionTimeout of inactivity"
  (internal/proxy/udp.go:17-18). An idle one can live for twice that
  (`UdpSessions.IdleSessionLivesTwice`). Empty replies, which restart the timer
  without counting as activity, can keep it for ever (`EmptyRepliesKeepSession`).
  And one failed write of a reply to the client ends its reader and with it every
  timer: the session stays, open and unread, and the client's packets go on
  reusing it (`AbandonedSessionStays`). These are all the ways: a session in the
  table is within the bound, about to be dropped, or had such a failed write
  (`EvictionBound`, `TabledReader`, `AbandonedIff`).
- The reader of a dead UDP session can evict its successor
  (`UdpSessions.StaleReaderEvictsSuccessor`, `DropRemoves`).
- `Close` does not always stop all sessions (internal/proxy/udp.go:90): one created
  after it has emptied the table stays open, unless a failed send for its client
  or a reader of its client drops it (`UdpSessions.CloseCanLeak`, `CloseLeavesOpenIff`).
- A window of w seconds takes in w + 1 one-second buckets, so "per second" is two
  seconds (internal/metrics/metrics.go:48-64): the sum is that of the last w
  seconds exactly when nothing was logged w seconds ago
  (`RateWindow.SumIsLastSecondsIff`, `LastSecondIsCounted`).
- `statsFlusher` over-counts after a restart (`Stats.RestartRecounts`,
  `FlushedTrafficCountsTwice`; the comment at internal/proxy/proxy.go:126-128 says
  never), and does not exactly when no restart follows a non-zero snapshot
  (`NeverOverCountsIff`).
- Of two stored backends whose names differ only in case, `Manager.Start` brings
  up both and keeps one in its table: the other runs and can be neither listed,
  removed nor shut down (`Manager.StartedIsTabledIff`). The manager can itself
  come to store such rows (`StartedCanBeLost`).
  It keeps the newest (`NewestIsTabledIff`), because `GetBackends`, documented as
  newest first, reads in the order of ids (internal/storage/storage.go:111-113).
- `Manager.Remove` by number deletes the wrong key (`Manager.RemoveKeepsIff`,
  `RemoveByNumberBreaks`), and for an unknown reference returns with the mutex
  held (`Manager.BackendManager.Remove`). `Add` does not check its UDP port
  (`Manager.UdpPortsStayDistinctIff`, `UdpPortsCanCollide`).
- Quoted empty arguments vanish (`Tokenizer.TokenizeInvertsQuoting`).

## Model

| member | source | states |
|---|---|---|
| Varint.DecodeVarint | pkg/mcproto/mcproto.go:156-165 | for every byte string, the length and int32 value of the varint at its front as the specification has them, and (0, 0) exactly when there is none |
| Varint.ByteReader.ReadVarint | pkg/mcproto/mcproto.go:167-180 | the same specification: the same value, the same bytes consumed, rejected on the same inputs |
| McProto.ReadLength | pkg/mcproto/mcproto.go:51-66 | the third decoder against that specification again, over a stream in chunks: the length before its range check, the bytes taken, and which of the two failures |
| Varint.AppendVarint | pkg/mcproto/mcproto.go:182-192 | appends exactly the specified encoding, on negative values too |
| Varint.VarintLenSpec | pkg/mcproto/mcproto.go:156-180 | what the decoders look for is the one complete varint of at most five bytes, and they report none only if no prefix is one |
| Varint.VarintPrefix | pkg/mcproto/mcproto.go:156-180 | any complete varint, canonical or not, is taken whole whatever follows |
| Varint.DecodeEncode | pkg/mcproto/mcproto.go:156-192 | decoding inverts encoding on all of int32 with any suffix; 1 to 5 bytes |
| Varint.EncodeIsShortest | pkg/mcproto/mcproto.go:182-192 | no varint denoting the same int32, overflowing fifth bytes included, is shorter than the encoding |
| Varint.OrGroupIsValue | pkg/mcproto/mcproto.go:51-66 | one step of the accumulating loops keeps the value of the bytes read, the fifth truncated to 32 bits |
| Varint.OrIsAddition | pkg/mcproto/mcproto.go:156-165 | on 32-bit vectors the shifted or of each group adds without overlap; this justifies modelling the loops by sums and enters no other proof |
| Varint.ValueByBytes | pkg/mcproto/mcproto.go:156-180 | the value of a varint spelled out in its bytes: seven bits each, least significant first, modulo 2 to the 32 |
| Varint.ByteReader.ReadString | pkg/mcproto/mcproto.go:194-207 | the varint-prefixed string at the front and what is left, or none for a bad, negative or overlong length |
| Varint.TakeStringIff | pkg/mcproto/mcproto.go:194-207 | a string is read if and only if its announced length is not negative and that much follows |
| Varint.TakeEncodedString | pkg/mcproto/mcproto.go:194-212 | a string written by appendString reads back, leaving what followed |
| McProto.ReadFrame | pkg/mcproto/mcproto.go:50-79 | consumes exactly the frame, under every chunking; each error exactly as the whole stream determines it, and a lost read only if a read failed |
| McProto.FrameIsVerbatim | pkg/mcproto/mcproto.go:45-49 | Raw followed by the unread rest is the original stream |
| McProto.FramePrefix | pkg/mcproto/mcproto.go:50-79 | a length prefix, canonical or not, and its payload frame alike whatever follows, up to the limit |
| McProto.ParseHandshake | pkg/mcproto/mcproto.go:91-118 | the field-by-field specification of a handshake, with every rejection |
| McProto.MarshalHandshake | pkg/mcproto/mcproto.go:122-133 | the frame whose pieces are the encodings of the fields and the new host |
| McProto.WireOfHandshake | pkg/mcproto/mcproto.go:122-133 | the bytes of the frame in their order: length, id 0, protocol, host length, host, port with its high byte first, intent |
| McProto.AnySpellingReads | pkg/mcproto/mcproto.go:91-118 | a handshake body is read field by field however its varints are spelled and whatever follows it |
| McProto.TruncatedIsRejected | pkg/mcproto/mcproto.go:91-118 | no body that ends early is parsed, wherever it ends |
| McProto.ParseMarshalled | pkg/mcproto/mcproto.go:91-133 | parsing a marshalled handshake returns the same protocol, port and intent, negatives included, and the new host |
| McProto.ParseMarshalParse | pkg/mcproto/mcproto.go:91-133 | parse, marshal, parse is parse, also for frames with non-canonical varints |
| McProto.ReadMarshalled | pkg/mcproto/mcproto.go:50-79 | the rewritten bytes read back as that frame, leaving exactly the rest, if and only if the payload is within MaxFrame |
| McProto.FrameIsKeptIff | pkg/mcproto/mcproto.go:120-133 | re-encoding a handshake with its own host gives back its frame byte for byte if and only if the length, id, protocol, host-length and intent varints are canonical and nothing follows the intent |
| McProto.TrailingBytesAreDropped | pkg/mcproto/mcproto.go:91-133 | any handshake with bytes after its intent frames, parses and is re-encoded differently |
| McProto.MarshalledNotLonger | pkg/mcproto/mcproto.go:122-133 | re-encoding grows a handshake by what the host grows and at most four bytes more |
| McProto.TakenVarintNotLonger | pkg/mcproto/mcproto.go:167-192 | a varint read and written back is not longer |
| McProto.ParseLoginName | pkg/mcproto/mcproto.go:136-141 | the name string of a login start, or none |
| McProto.MalformedIdIsHarmless | pkg/mcproto/mcproto.go:74-78 | a frame whose id varint is malformed gets id 0 and the whole payload, and both parsers reject it |
| Uuid.OfflineUUID | pkg/mcproto/mcproto.go:146-152 | the in-place stamping and formatting compute the specified UUID of the digest |
| Uuid.UuidShape | pkg/mcproto/mcproto.go:146-152 | 36 characters, dashes exactly in place, version 3, RFC 9562 variant, no NUL, for every digest |
| Uuid.UuidReads | pkg/mcproto/mcproto.go:146-152 | read as hexadecimal, every byte is that of the MD5 of OfflinePlayer: and the name, but for version and variant |
| Uuid.UuidKeepsTheRest | pkg/mcproto/mcproto.go:146-152 | two digests give one UUID if and only if they agree outside the six stamped bits |
| Streams.Source.ReadFull | pkg/mcproto/mcproto.go:54-69 | io.ReadFull over short reads: all n bytes or an error, nothing taken twice or skipped; it fails only if a read has |
| Streams.Sink.CountedWrite | internal/proxy/conn.go:69-76 | the counter grows by exactly the bytes written, also when the write fails part way |
| Streams.Pipe | internal/proxy/conn.go:80-96 | what is written is a prefix of what was to be read, all of it unless a read or a write has failed; nothing read is lost unless a write failed; the counter moves by the bytes written |
| Forwarding.ForwardBungee | internal/proxy/proxy.go:403-441 | bytes written plus bytes left unread are the specified target stream; on an error, a prefix of it or nothing, and no read or write is lost unless one has failed |
| Forwarding.ForwardLogin | internal/proxy/proxy.go:416-437 | the same from the second frame on |
| Forwarding.Rewrite | internal/proxy/proxy.go:431-432 | the handshake rewritten to host, client address and UUID separated by NUL |
| Forwarding.WritePPv2 | internal/proxy/proxy.go:448-474 | the header for the addresses of the client socket and nothing else; an invalid header is an error with nothing sent, and it panics exactly when the header has no family |
| Forwarding.ForwardPreamble | internal/proxy/proxy.go:382-391 | each mode meets its target |
| Forwarding.Forward | internal/proxy/proxy.go:334-378 | end to end for every stream, chunking, buffer size and mode: the backend only ever holds a prefix of the target, and when no read and no write fails the whole of it, or nothing if there is no target; in raw mode that is the stream itself; exactly when the process panics |
| Forwarding.WellFormedLogs | internal/proxy/proxy.go:403-441 | every login handshake and login start within the frame limit is one that is rewritten |
| Forwarding.BackendReadsRewrite | internal/proxy/proxy.go:396-441 | if the rewritten payload is within MaxFrame, the backend frames the target into the client's handshake with only the host replaced, the login start byte for byte, and the untouched rest |
| Forwarding.RewriteFits | internal/proxy/proxy.go:431-432 | the size condition of that holds whenever the client's frame is 43 bytes and an address below the limit |
| Forwarding.BackendReadsFields | internal/proxy/proxy.go:396-401 | split at NUL, the last two fields are the real address and the UUID; there is one before them if and only if the host has no NUL |
| Forwarding.FallbackIsTransparentIff | internal/proxy/proxy.go:403-441 | for every stream: nothing is forwarded if and only if a frame that is read is missing, and the stream is forwarded unchanged if and only if none is and it does not log in |
| Forwarding.RewriteIsAnother | internal/proxy/proxy.go:431-432 | whatever begins with a rewrite to a longer host never frames into the original handshake, so a rewrite always changes the stream |
| Forwarding.LoginIsIdZeroIntentTwo | internal/proxy/proxy.go:410-428 | what is rewritten starts with two packets of id 0, the first a handshake of intent 2 |
| Forwarding.FramingErrorIsFatal | internal/proxy/proxy.go:406-409 | a one-byte stream the documented fallback does not cover |
| Forwarding.MalformedIdIsForwarded | internal/proxy/proxy.go:410-415 | a first frame with a malformed id is forwarded unchanged |
| Forwarding.BackendReadsPpv2 | internal/proxy/proxy.go:448-463 | for addresses of one family the backend's stream is, byte for byte, the version 2 PROXY header of section 2.2 and the client's stream; a reader gets both addresses and ports back |
| Forwarding.Ppv2NeedsOneFamily | internal/proxy/proxy.go:452-459 | for real addresses there is something to forward if and only if both are TCP of one family, and otherwise it panics |
| Ppv2.Marshal | pkg/ppv2/ppv2.go:118-141 | filling the buffer in place yields the signature, fixed fields, addresses and ports of section 2.2; invalid headers are refused and the unspecified family indexes out of range |
| Ppv2.WriteIP | pkg/ppv2/ppv2.go:143-152 | fills its field and nothing else, and leaves it zero for an address of no known length |
| Ppv2.ReadHeader | pkg/ppv2/ppv2.go:166-204 | under every chunking, exactly the header is consumed, and every rejection is determined by the stream |
| Ppv2.AcceptedIff | pkg/ppv2/ppv2.go:166-204 | a stream is accepted if and only if it has the twelve signature bytes, a length of at most 36 and that many bytes |
| Ppv2.AcceptedIsValidIff | pkg/ppv2/ppv2.go:166-204 | when the header returned is Valid, by the bytes it was read from |
| Ppv2.VersionIsIgnored | pkg/ppv2/ppv2.go:184-188 | a header of any version is read like one of version 2 |
| Ppv2.ReadEncoded | pkg/ppv2/ppv2.go:118-204 | reading a marshalled header returns it with addresses in wire form and leaves exactly the rest; 16+12 or 16+36 bytes |
| Ppv2.WireOfINET | pkg/ppv2/ppv2.go:118-141 | the 28 bytes of an IPv4 header as section 2.2 has them |
| Ppv2.WireOfINET6 | pkg/ppv2/ppv2.go:118-141 | the 52 bytes of an IPv6 header |
| Ppv2.ReadsBackUnchanged | pkg/ppv2/ppv2.go:118-204 | it comes back identical if and only if the addresses already had wire length |
| Ppv2.SizeIsTwoShort | pkg/ppv2/ppv2.go:71-72 | Size is the encoded length minus two |
| Ppv2.MarshalSucceedsIff | pkg/ppv2/ppv2.go:75-141 | exactly the headers with a known command, a stream or datagram protocol and two addresses of their IP family have an encoding; a Valid one without is exhibited |
| IpTracker.IpConnTracker.Inc | internal/proxy/conn.go:21-30 | the map after an increment |
| IpTracker.IpConnTracker.Dec | internal/proxy/conn.go:32-40 | the map after a decrement; an entry that reaches zero is removed, an absent one stays absent |
| IpTracker.IpConnTracker.Count | internal/proxy/conn.go:42-49 | zero for an absent entry |
| IpTracker.DecUndoesInc | internal/proxy/conn.go:21-40 | dec restores the map inc found, no entry left behind |
| ConnLifecycle.ActionKeeps | internal/proxy/proxy.go:264-378 | every atomic step of every goroutine keeps the whole invariant: sockets, counters and cap |
| ConnLifecycle.RunKeeps | internal/proxy/proxy.go:264-378 | so does every interleaving |
| ConnLifecycle.ReachableInv | internal/proxy/proxy.go:337-362 | in every reachable state active and the per-IP counts equal the connections that hold them, no entry is zero or negative, and no socket of a refused or released connection is open or tracked |
| ConnLifecycle.SocketsIff | internal/proxy/proxy.go:183-364 | in every run a socket is open if and only if it was accepted or dialled and not closed since, and in conns if and only if it was registered there and neither released nor force-closed since |
| ConnLifecycle.ServedSocketsAreOpen | internal/proxy/proxy.go:280-378 | in every run without a force-close both sockets of a connection are open from the accept and the dial to their own release |
| ConnLifecycle.ServedAndShutDown | internal/proxy/proxy.go:166-378 | a run in which a connection is served with both sockets open, is released, shutdown returns with nothing left, and a restart accepts again |
| ConnLifecycle.CapPerIP | internal/proxy/proxy.go:293-340 | with n loops, counted plus in-flight connections of an address are at most max + n - 1 |
| ConnLifecycle.CapIsReached | internal/proxy/proxy.go:293-340 | an interleaving that reaches that bound, for all n and max |
| ConnLifecycle.MaximumIsACapIff | internal/proxy/proxy.go:293-340 | the configured maximum is never exceeded if and only if there is one loop |
| ConnLifecycle.UncappedIff | internal/proxy/proxy.go:293-300 | every number of counted connections of an address occurs if and only if the maximum is not positive |
| ConnLifecycle.ShutdownLeavesNothing | internal/proxy/proxy.go:166-180 | when shutdown returns, its backend has active 0, no tracked and no open sockets and no tracker share, also if a connection registered after the force-close |
| ConnLifecycle.TrackerEmptiesAtShutdown | internal/proxy/proxy.go:166-180 | after all shutdowns the shared tracker is empty |
| ConnLifecycle.ProgressCounts | internal/proxy/proxy.go:350-364 | the progress of a connection's release is the number of its release steps in the run |
| ConnLifecycle.ReleasedExactlyOnce | internal/proxy/proxy.go:347-378 | in every run each release happens at most once per connection, and all have happened once either goroutine is done |
| ConnLifecycle.Backend.Register | internal/proxy/proxy.go:337-342 | one more active, one more share, both sockets tracked; from any machine state it ends where the connection's four registration actions end |
| ConnLifecycle.Backend.CloseBoth | internal/proxy/proxy.go:350-364 | both sockets closed and untracked, share and active given back; it ends where the connection's seven release actions end |
| ConnLifecycle.Backend.ForceCloseConns | internal/proxy/proxy.go:183-190 | every tracked socket closed, no other, and none tracked, as the machine's force-close does |
| ConnLifecycle.RegisterIsFourActions | internal/proxy/proxy.go:337-342 | the four registration actions can run in a row and together change the two counters, the tracked sockets and the connection's phase only |
| ConnLifecycle.CloseBothIsSevenActions | internal/proxy/proxy.go:350-364 | the seven release actions can run in a row and together give back exactly what the connection held |
| UdpSessions.ActionKeeps | internal/proxy/udp.go:91-262 | every step of packet loop, readers and Close keeps the invariant on table, sockets, timers and traffic |
| UdpSessions.RunKeeps | internal/proxy/udp.go:91-262 | so does every interleaving |
| UdpSessions.EvictionBound | internal/proxy/udp.go:235-262 | a session evicted by timeout was idle longer than the timeout, with no newer traffic, and at most twice as long if and only if no empty reply came more than a timeout after it was last seen |
| UdpSessions.IdleBound | internal/proxy/udp.go:235-262 | at every moment a session whose reader waits has been idle at most twice the timeout, or had an empty reply within the last timeout |
| UdpSessions.DeadlineIsTimer | internal/proxy/udp.go:241-260 | in every run a waiting reader's deadline is exactly one timeout after its creation, last reply or last early expiry |
| UdpSessions.TabledReader | internal/proxy/udp.go:235-262 | every session in the table has a waiting reader and is within that bound, or a reader about to drop it, or lost its reader to a failed write |
| UdpSessions.AbandonedIff | internal/proxy/udp.go:244-247 | a reader has returned without dropping its session if and only if a write of a reply to its client failed somewhere in the run; no later action undoes it |
| UdpSessions.AbandonedSessionStays | internal/proxy/udp.go:244-247 | for every d, a run that leaves such a session tabled and open, idle for d, with nothing to drop it, and given to the client's next packet |
| UdpSessions.LeavesTableIff | internal/proxy/udp.go:91-212 | an action takes a session out of the table if and only if it is a drop by its client's key, after a failed send or by a reader of that client, or Close's clearing |
| UdpSessions.IdleSessionLivesTwice | internal/proxy/udp.go:235-262 | one packet keeps a session for exactly twice the timeout |
| UdpSessions.EmptyRepliesKeepSession | internal/proxy/udp.go:243-262 | empty replies keep an otherwise idle session for any number of timeouts |
| UdpSessions.SocketServesOneClient | internal/proxy/udp.go:149-164 | everything ever passed through an upstream socket, both ways, was one client's |
| UdpSessions.TrafficIsComplete | internal/proxy/udp.go:149-164 | in every run what passed through the upstream sockets is, in order, exactly the packets whose sends succeeded, each for the client it came from, and the replies that were written, each to its session's client |
| UdpSessions.NoOrphanSockets | internal/proxy/udp.go:167-212 | an open socket is in the table under its client or held by one dropSession about to close it, never both, and tabled ones are open |
| UdpSessions.DropRemoves | internal/proxy/udp.go:201-212 | a reader's drop removes exactly its client's current session, which is its own if its own is still there |
| UdpSessions.StaleReaderEvictsSuccessor | internal/proxy/udp.go:201-212 | a run in which a dead session's reader evicts the live one just used |
| UdpSessions.CloseLeavesOpen | internal/proxy/udp.go:91-108 | what is open after Close is what is tabled, each created after the table was emptied and abandoned by its reader |
| UdpSessions.CloseLeavesOpenIff | internal/proxy/udp.go:90-108 | for every run to the return of Close, a socket is left open if and only if its session was created after the clearing and no later action dropped its client; none is if and only if there is no such session |
| UdpSessions.CloseLeavesAtMostOne | internal/proxy/udp.go:90-108 | and there is at most one such socket, whatever was in flight |
| UdpSessions.StaysTabledIff | internal/proxy/udp.go:91-212 | over any run an existing session is tabled at the end if and only if it was at first and no drop of its client and no clearing came between |
| UdpSessions.CloseCanLeak | internal/proxy/udp.go:91-108 | a run in which Close returns with a socket open |
| UdpSessions.SessionTable.GetOrCreate | internal/proxy/udp.go:167-190 | the client's session, or a new one tabled and open, or no change; the table, sockets and choice of the machine's action |
| UdpSessions.SessionTable.DropSession | internal/proxy/udp.go:201-212 | the client's entry gone and its socket closed, nothing else; where the machine's two drop actions end |
| UdpSessions.SessionTable.Close | internal/proxy/udp.go:99-106 | an empty table, exactly the tabled sockets closed, as the machine's action leaves them |
| UdpSessions.DropIsTwoActions | internal/proxy/udp.go:201-212 | a reader's two drop actions can run in a row, remove its client's entry, close that socket and leave nothing held |
| RateWindow.PerIpTracker.Inc | internal/metrics/metrics.go:112-133 | the bucket maps after an increment |
| RateWindow.PerIpTracker.Sum | internal/metrics/metrics.go:135-150 | the total of the buckets no older than the window, whatever order the map is walked in |
| RateWindow.PerIpTracker.Prune | internal/metrics/metrics.go:152-165 | exactly the old buckets and the addresses left empty are gone |
| RateWindow.IncAgrees | internal/metrics/metrics.go:112-133 | inc keeps the buckets in agreement with the event log |
| RateWindow.PruneAgrees | internal/metrics/metrics.go:152-165 | prune keeps them in agreement from its cutoff on |
| RateWindow.RunKeeps | internal/metrics/metrics.go:93-165 | every run keeps them in agreement for the last 90 seconds |
| RateWindow.WindowIsExactIff | internal/metrics/metrics.go:97-150 | sum with window w equals the logged events with now - t at most w, in all runs, if and only if w is at most 90 |
| RateWindow.SumIsLastSecondsIff | internal/metrics/metrics.go:48-64 | in any run, sum with window w is the number of events in the last w seconds if and only if none was logged exactly w seconds ago |
| RateWindow.LastSecondIsCounted | internal/metrics/metrics.go:60-64 | a run in which the packets of a second ago are reported for the current one |
| RateWindow.PruneShowsBeyondRetention | internal/metrics/metrics.go:97-104 | a run in which a longer window is wrong |
| RateWindow.BucketsAfterPrune | internal/metrics/metrics.go:152-165 | after a prune every address left has 1 to 91 buckets |
| UdpRate.ActionKeeps | internal/proxy/udp.go:139-153 | check, count, prune and clock steps of all forwarders keep the load bound |
| UdpRate.PacketsInTwoSeconds | internal/proxy/udp.go:139-153 | with n forwarders at most max + n packets of an address are counted in any two adjacent seconds of any run |
| UdpRate.BoundIsReached | internal/proxy/udp.go:139-153 | an interleaving that reaches it, for all n and max |
| UdpRate.RateBoundIff | internal/metrics/metrics.go:60-64 | a number bounds all runs if and only if it is at least max + n |
| RateLimiter.Limiter.constructor | internal/security/security.go:143-151 | the defaults for capacity and refill, and no buckets |
| RateLimiter.Limiter.Allow | internal/security/security.go:154-173 | the verdict and the new bucket map; VerdictsAreWindows says what they amount to |
| RateLimiter.VerdictsAreWindows | internal/security/security.go:154-185 | on every trace the verdicts are those of fixed windows read off the call times alone: the first capacity calls of a window, which opens at the first call a refill after the last one opened |
| RateLimiter.DeniedOnlyIfSpent | internal/security/security.go:154-173 | a call is denied only if capacity calls of its key were granted in the refill interval up to it |
| RateLimiter.Limiter.Prune | internal/security/security.go:176-185 | exactly the buckets filled before the cutoff are gone |
| RateLimiter.Simulation | internal/security/security.go:154-185 | a trace and the same trace without its prunes give the same verdicts and grants, from any related bucket maps |
| RateLimiter.PruneIsUnobservableIff | internal/security/security.go:175-185 | pruning at an age changes no verdict of any trace if and only if the age is at least refill less one nanosecond |
| RateLimiter.PruneShows | internal/security/security.go:175-185 | for any younger age, a trace whose verdict changes |
| RateLimiter.SlidingBound | internal/security/security.go:141-173 | in any half-open interval of length d a key is granted at most Bound(d) < capacity * (ceil(d / refill) + 1) calls, at most 2 * capacity - 1 in one refill, with prunes of age at least refill less one nanosecond anywhere |
| RateLimiter.SlidingBoundIsMet | internal/security/security.go:141-173 | for every limiter and every d a trace that is granted exactly Bound(d) |
| RateLimiter.SlidingBoundIff | internal/security/security.go:141-185 | a number bounds all traces and all intervals of length d if and only if it is at least Bound(d) |
| Stats.Store.RecordStat | internal/storage/storage.go:232-243 | one row upserted by addition, or nothing on an error |
| Stats.Store.SumStats | internal/storage/storage.go:246-265 | for exactly the backends with rows, the sum over all hours |
| Stats.UpsertAdds | internal/storage/storage.go:232-265 | an upsert in any hour adds its row to its own backend's aggregate and to no other |
| Stats.Flusher.Flush | internal/proxy/proxy.go:137-154 | records the difference since the last snapshot, if any, and moves the snapshot even on an error |
| Stats.AccountBalances | internal/proxy/proxy.go:129-157 | over any run with failures and restarts, what the table gained plus what was lost is what all flushers snapshotted |
| Stats.OneLifetimeConserves | internal/proxy/proxy.go:126-157 | in one flusher's lifetime without errors each column of the aggregate grows by exactly the counters at the last flush, never past those of the pipes |
| Stats.EverythingIsRecorded | internal/proxy/proxy.go:137-154 | after a last flush each column has gained all the traffic of the run |
| Stats.HoursAreSeparate | internal/proxy/proxy.go:145-153 | each hour's row gains what was flushed in that hour and nothing else |
| Stats.BackendsAreSeparate | internal/storage/storage.go:232-243 | the rows of every other backend gain what it records itself and nothing from this one |
| Stats.RestartRecounts | internal/proxy/proxy.go:207-220 | across restarts the aggregate is off by what earlier flushers snapshotted less what was lost, and right if and only if those are equal |
| Stats.NeverOverCountsIff | internal/proxy/proxy.go:126-157 | when no flush fails, the aggregate stays within the counters if and only if no restart has followed a non-zero snapshot |
| Stats.FlushedTrafficCountsTwice | internal/proxy/proxy.go:207-220 | all traffic flushed before a restart is recorded a second time after it |
| Manager.BackendManager.Start | internal/proxy/manager.go:65-86 | the table loaded from the enabled rows whose listeners come up |
| Manager.StartEstablishes | internal/proxy/manager.go:65-86 | that table, whatever is stored, satisfies the invariant, when two listeners cannot share a port |
| Manager.StartedIsTabledIff | internal/proxy/manager.go:73-82 | every backend that was brought up is in the table if and only if no two of them share a lower-cased name |
| Manager.NewestIsTabledIff | internal/proxy/manager.go:73-82 | of the started backends with one lower-cased name, exactly the one with the greatest id is in the table |
| Manager.StartedCanBeLost | internal/proxy/manager.go:73-82 | a boot, an accepted Add and a second boot after which a running backend is in no table and its port is reported free |
| Manager.BackendManager.PortFreeLocked | internal/proxy/manager.go:323-333 | true exactly when no record listens on the port by TCP or enabled UDP |
| Manager.BackendManager.InsertRow | internal/storage/storage.go:99-109 | a row under a fresh id, or a refusal of a stored name |
| Manager.BackendManager.Add | internal/proxy/manager.go:141-201 | both tables after success, each rejection, and the rollback of a failed start; succeeds exactly when accepted and up |
| Manager.BackendManager.SetForwardMode | internal/proxy/manager.go:249-263 | the mode changed in record and row, or nothing |
| Manager.BackendManager.AddUDP | internal/proxy/manager.go:266-295 | UDP fields set in record and row, or nothing |
| Manager.BackendManager.RemoveUDP | internal/proxy/manager.go:298-315 | UDP fields cleared in record and row, or nothing |
| Manager.BackendManager.Remove | internal/proxy/manager.go:204-232 | what is removed by name and by number, that nothing is when nothing resolves, and that then the mutex stays locked |
| Manager.ActionKeeps | internal/proxy/manager.go:141-315 | each operation keeps: keys are lower-cased names, TCP ports distinct, records equal to their stored rows |
| Manager.RunKeeps | internal/proxy/manager.go:141-315 | so does every sequence of operations, whichever listeners come up |
| Manager.BackendIsAdded | internal/proxy/manager.go:141-201 | when Add accepts, condition by condition, the record and row it then leaves, and that nothing else changes |
| Manager.ModeIsSet | internal/proxy/manager.go:249-263 | a known backend and its row get one of the three modes, and nothing else changes |
| Manager.UdpIsAdded | internal/proxy/manager.go:266-295 | a known backend without UDP and its row get an unused port in range and an address, and nothing else changes |
| Manager.UdpIsRemoved | internal/proxy/manager.go:298-315 | the UDP fields of a known backend and its row are cleared, and nothing else changes |
| Manager.RemoveUndoesAddUDP | internal/proxy/manager.go:266-315 | RemoveUDP after AddUDP restores both tables |
| Manager.RemoveUndoesAdd | internal/proxy/manager.go:141-232 | removing what was added restores both tables, but for the next id |
| Manager.RemoveKeepsIff | internal/proxy/manager.go:204-232 | a removal keeps the invariant if and only if it was by name |
| Manager.RemoveByNumberBreaks | internal/proxy/manager.go:204-232 | for any backend, a removal by its number that leaves it in the table without its row |
| Manager.UdpPortsStayDistinctIff | internal/proxy/manager.go:141-295 | Add keeps UDP ports distinct if and only if no backend has the new one; AddUDP always does |
| Manager.UdpPortsCanCollide | internal/proxy/manager.go:141-201 | two accepted Adds that leave two backends on one UDP port |
| Tokenizer.Tokenize | internal/telegram/parse.go:19-44 | the loop computes the specified lexer's tokens |
| Tokenizer.ParseCommand | internal/telegram/parse.go:7-15 | first token lower-cased, the rest as they are, or nothing |
| Tokenizer.RunWord | internal/telegram/parse.go:30-41 | a word typed as any mixture of bare and quoted segments adds its text to the current token |
| Tokenizer.TokensOfLine | internal/telegram/parse.go:17-44 | a line of such words, with any white space between, gives their texts back, less the empty ones |
| Tokenizer.OpenQuoteCloses | internal/telegram/parse.go:17-44 | a quote left open at the end of a line counts as closed there |
| Tokenizer.TokenizeInvertsQuoting | internal/telegram/parse.go:17-44 | quoting and splitting a list of any strings returns it if and only if none is empty |

## Left out

- Streams.Source.Read: which chunk arrives, and whether a read fails, is arbitrary; sockets, dialling, accepting and deadlines are such choices throughout.
- Uuid.OfflineUUID: MD5 is any function to 16 bytes.
- Forwarding.ForwardedHost: the printed client address is a parameter: any text of at most 45 characters without NUL.
- Ppv2.Marshal: the run-time panic is a result value and ends the modelled connection; what else the process was doing is not modelled.
- ConnLifecycle: `handleConn` is not one method, because other goroutines run between its statements; bans, `notifyDDoS`, dial alerts and logging are not modelled.
- ConnLifecycle.ShutdownLeavesNothing: says what holds when `shutdown` returns, not that it does; it can wait for a connection that registers after the force-close.
- UdpSessions: timers are ideal, so a deadline fires at its instant and a step takes no time; the non-positive timeout is replaced by its default before the machine starts.
- RateWindow.PerIpTracker.Inc: one atomic step, though the source reads the inner map outside its mutex; the clock does not go back.
- Stats: counters do not wrap at 64 bits; `udpBytes` and `udpPkts` are carried along, although nothing shown in the source increments them.
- Stats.Store.RecordStat: SQL, migrations, bans and the audit log are not modelled; the table is a map, and the removal of a backend's rows with the backend is not part of it.
- Manager: operations are atomic; the store fails only where AddBackend refuses a stored name; time stamps, shutdown grace and the UDP forwarder's start are not modelled.
- Manager.BackendManager.Add: trimming, lower-casing and the address checks are parameters.
- Tokenizer.ParseCommand: lower-casing is a parameter, and characters stand for Go's runes.
- Configuration, the Telegram interface, iptables, signal handling and deployment.
