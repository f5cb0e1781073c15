# socktrail, verified

socktrail watches Linux network traffic. It reassembles the bytes it captures, reads the
names in them, keeps a bounded table of connections per interface, merges the interfaces
into one host view every second, and publishes a change stream. This project models those
parts in Dafny and proves what they promise over every input, every arrival order and
every run. `dafny verify dfyconfig.toml` checks all of it.

Classes are the source's objects with their fields. Each method is proved against a
specification function or an invariant, and the lemmas prove what the source promises of
that specification. Map iteration is a non-deterministic choice, time is a parameter, and
calls into code outside the model (HPACK, TLS message bodies, request header text) are
function parameters about which nothing is assumed.

| file | models |
|---|---|
| `Sequence32.dfy`, `Coverage.dfy`, `Rings.dfy`, `Sorting.dfy`, `Prelude.dfy`, `Evidence.dfy` | 32-bit sequence arithmetic, stretches of a stream, bounded rings, sorting, shared types |
| `TcpStream.dfy` | TCP reassembly, over any parser that meets four laws |
| `Http1.dfy`, `Http2.dfy`, `Tls.dfy`, `Dispatch.dfy` | the resumable parsers, what they make of well-formed connections, and that together they meet the laws |
| `QuicCrypto.dfy`, `QuicFrames.dfy`, `PacketNumber.dfy` | QUIC Initial packets: frames, CRYPTO reassembly, packet numbers |
| `FlowTable.dfy`, `Ledgers.dfy`, `Collector.dfy`, `Generations.dfy` | the per-interface collector, its accounts, and what its flows are |
| `Endings.dfy`, `Changes.dfy`, `HostView.dfy`, `Grouping.dfy` | the merged host view, its endings, its change log, the grouping of observations |
| `Retransmit.dfy`, `KernelState.dfy` | the retransmission detector and the kernel's socket state |
| `Pcapng.dfy` | the recording writer and reader |
| `StreamHub.dfy` | the subscriber hub |

## What came out

These are properties of the code as it is; where its comments suggest otherwise, the code
was followed.

- A TCP segment that starts 2^31 bytes behind the read point makes the slice offset
  `int(-d)` negative, because negating the least int32 gives itself. `OverlapInRange` says
  that the offset is in range if and only if the segment is not there, and that no part
  that waits ever is; `HalfTheSpaceBehind` is an input.
- An HTTP/1.1 stream cut in pieces accepts everything the whole accepts, except when a
  piece ends inside the line end of a chunk size line of exactly 256 bytes, or inside a
  trailer longer than 16 KiB. `SplitLosesOnlyAtLimits` is the exact condition, both ways,
  and `StallsHappen` meets it.
- An HTTP/2 parse error never becomes the stream's failure: the parser marks itself
  finished first, and `Fail` leaves finished parsers alone. `H2ErrorsAreNotRecorded` says
  that an error is recorded if and only if it is not one of HTTP/2, and `H2ErrorHappens`
  gives one.
- A recording reads back exactly if and only if no interface name is empty and no packet
  precedes the epoch. Neither is refused when it is written (`RoundTrip`;
  `RecordingsFail` has an input for each).
- A recorded ending is not immutable in full: its snapshot shares the evidence that its
  interface's flow goes on feeding. What it shows later is what it showed if and only if
  it has no evidence or that says the same name (`RecordedNamesFollow`;
  `RecordedNameMoves` is a run in which it does not).
- A connection of a tick may be shown and recorded as ended although it goes on and is not
  due to end. `ShownAsGoingOn` says that this happens if and only if it inherits an end:
  either its ID was shown as ended before, or an earlier connection of the tick had the
  same ID and the two share the snapshot. `SplitLivesOnAsEnded` is a case of the second.
- The retransmission guard changes the verdict of a full scan if and only if the scan finds
  something and the payload starts more than 2^31 bytes behind the furthest end
  (`GuardMissesExactly`, up to whole turns of the 32-bit numbers; `GuardMissesFarBack` is
  an input). Within that distance it never does (`GuardRefinesScan`).
- QUIC data that starts at or before the end of the prefix is compared with the prefix
  alone. So a conflict goes unnoticed if and only if such data agrees with the prefix and
  disagrees with a part that waits (`ConflictMissed`; `AppendedOverWaiting` is an input).
  The second comparison with a part at the same offset can never fail after the first.

## Model

| member | source | states |
|---|---|---|
| `TcpStream.Stream.Add` | internal/domain/stream.go:287-323 | In any order, a segment past the read point waits or hits the 64 KiB or 64 part limit, an old one is only noted, and any other is fed to the parser from the read point on and then whatever it unblocked; what the parser then is, and whether and why the stream failed, is what feeding those pieces gives; afterwards the longest covered prefix was read |
| `TcpStream.AdmitsMeans` | internal/domain/stream.go:287-323 | So a segment is noted once, the read point never moves back and passes the segment unless that waits, and the stream stops if and only if a limit is hit, a feed errs or the parser finishes |
| `TcpStream.Stream.AddSegment` | internal/domain/stream.go:328-354 | A truncated segment that is old changes nothing, one that is not next fails the stream, and the next one is read as far as captured and then skipped for its exact remainder, or fails the stream if the parser cannot skip; then what it unblocked is fed |
| `TcpStream.TruncatedMeans` | internal/domain/stream.go:342-353 | The next truncated segment is skipped in full if and only if its captured start neither errs nor finishes and the parser can skip the rest, and it stops the stream otherwise, with that reason |
| `TcpStream.TruncatedElsewhere` | internal/domain/stream.go:333-341 | Any other truncated segment gives the parser nothing: an old one leaves the stream as it is, and one past a gap, or over what was read, makes it fail |
| `TcpStream.Stream.Drain` | internal/domain/stream.go:357-383 | Whatever order the map yields, afterwards every waiting part starts strictly past the read point and the byte count is the exact sum of the parts; parser, failure and read point are what feeding the delivered pieces gives |
| `TcpStream.Stream.Push` | internal/domain/stream.go:385-398 | Pushing advances the read point by what was pushed and turns a parser error into the stream's failure |
| `TcpStream.Stream.Fail` | internal/domain/stream.go:245-257 | The first failure is kept, everything waiting is dropped, and a finished parser is left alone |
| `TcpStream.ArrivalOrderIrrelevant` | internal/domain/stream.go:287-398 | Two runs that did not fail and saw the same stretches of one stream leave the same parser, and while running read equally far, whatever order, duplicates, overlaps, wraps and map iterations either had; a run whose parser finished, also with an error, may have missed anything after that |
| `TcpStream.AheadIsLongest` | internal/domain/stream.go:357-383 | If every waiting part starts past the read point, what was read is the longest prefix the segments cover |
| `TcpStream.FinishedIsFinal` | internal/domain/stream.go:400-420 | A parser that finished early holds what any longer read of the stream gives |
| `TcpStream.OverlapInRange` | internal/domain/stream.go:312-319 | For a running or draining stream, the slice offset of a segment at or behind the read point is in range and leaves exactly the bytes past the read point, if and only if the segment is not 2^31 behind; no waiting part ever is |
| `TcpStream.HalfTheSpaceBehind` | internal/domain/stream.go:312-319 | It is out of range for an input to any fresh stream |
| `TcpStream.PushedKeeps` | internal/domain/stream.go:385-398 | A delivery at the read point keeps the account of what was read, waits and was seen |
| `TcpStream.QueuedKeeps` | internal/domain/stream.go:292-306 | Keeping a part past the read point, or a longer one in its place, keeps the exact sum and both limits |
| `TcpStream.SkippedKeeps` | internal/domain/stream.go:344-353 | Skipping uncaptured bytes leaves the parser where reading any such bytes would |
| `Coverage.LongestPrefixUnique` | internal/domain/stream.go:357-383 | Equal coverage has one longest prefix |
| `Sequence32.DiffExact` | internal/domain/stream.go:291-292 | Within 2^31, the wrapped int32 difference of two sequence numbers is the true distance |
| `Sequence32.DiffShift` | internal/domain/stream.go:385-398 | Advancing the read point by n lowers every difference by n until the bottom of the range |
| `Http1.HttpParser.Feed` | internal/domain/http.go:39-166 | The loop terminates unless the parser had left HTTP, and computes the specification's result in state, buffer, evidence and error; what that result is of requests, and of what ends them, the next rows say |
| `Http1.RequestsAreCounted` | internal/domain/http.go:39-166 | Any sequence of requests, built from header blocks and bodies of the stated length or chunks with extensions and trailers, leaves the parser between two requests with an empty buffer and every host counted exactly as often as it was asked for, up to 256 hosts |
| `Http1.RequestsInPieces` | internal/domain/http.go:39-166 | So it does for a fresh parser fed in two calls |
| `Http1.RequestsThen` | internal/domain/http.go:39-166 | Whatever follows such requests is read as by a parser between two requests |
| `Http1.LeavingHttp` | internal/domain/http.go:73-96 | After a CONNECT its destination is recorded and all later bytes are left for the tunnel; after another protocol's upgrade the host is counted and the bytes are dropped |
| `Http1.PrefaceSwitches` | internal/domain/http.go:47-57 | After a request for h2c the whole preface switches to HTTP/2 with nothing consumed, and any part of it is waited on |
| `Http1.RefusedHeaders` | internal/domain/http.go:58-85 | A header block is refused if its text is no header, if it is longer than 16 KiB with its blank line or unfinished, or if it asks for the 257th host |
| `Http1.RefusedLine` | internal/domain/http.go:114-131 | After any chunks a size line that is no number, or longer than 256 bytes, is refused (`UnfinishedLine` while its end is missing) |
| `Http1.RefusedEnd` | internal/domain/http.go:138-147 | So are two bytes after a chunk's data that are not a line end (`UnfinishedTrailer` for trailers over 16 KiB) |
| `Http1.FeedSplits` | internal/domain/http.go:39-166 | Feeding a and then b, if a is accepted, equals feeding a+b in state, Host counts, unread bytes and error, up to leaving HTTP |
| `Http1.RunSplits` | internal/domain/http.go:44-166 | The loop over a+b is the loop over a, resumed with b |
| `Http1.FailureIsFinal` | internal/domain/http.go:39-166 | A failure that is not a stall at a limit fails every longer input too |
| `Http1.StallIsEarly` | internal/domain/http.go:109-160 | A stall at a limit would have passed with some continuation |
| `Http1.SplitLosesOnlyAtLimits` | internal/domain/http.go:109-160 | A cut loses something one piece would accept if and only if the run stops at the guard of a limit: a 257 byte buffer that ends in CR after a valid size line, or an unfinished trailer over 16 KiB |
| `Http1.StallsHappen` | internal/domain/http.go:109-160 | Both guards are met by inputs |
| `Http1.SkipIsFeed` | internal/domain/http.go:168-183 | Skipping n body bytes, where allowed, is feeding any n bytes |
| `Http1.HttpParser.Skip` | internal/domain/http.go:168-183 | Skips exactly within a body, with the state a full capture would leave |
| `Http2.FeedSplits` | internal/domain/http2.go:37-71 | Feeding a and then b equals feeding a+b in state, evidence and first error, without exception |
| `Http2.Bytes` | internal/domain/http2.go:37-71 | After any input a complete frame header still owes payload unless stopped, buffers keep their limits, and every error stops the parser |
| `Http2.HeaderChunk` | internal/domain/http2.go:41-54 | Taking frame header bytes as a chunk is taking them one at a time |
| `Http2.PayloadChunk` | internal/domain/http2.go:55-70 | Taking frame payload as a chunk is taking it one byte at a time |
| `Http2.H2Parser.Feed` | internal/domain/http2.go:37-71 | The chunked loop refines the byte machine in state, evidence and error; what that makes of frames the next rows say |
| `Http2.ConversationIsCounted` | internal/domain/http2.go:37-135 | Of any frames, with header blocks padded, prioritized and cut into CONTINUATION frames in any way, each block's joined fragments are decoded once and in order, each new stream's destination is counted once, gRPC is noted if and only if a block says so, and nothing else changes |
| `Http2.BlockRuns` | internal/domain/http2.go:80-135 | One header block: what the sender's encoder wrote is decoded as a whole when it ends |
| `Http2.FrameRuns` | internal/domain/http2.go:41-71 | A frame built as section 4.1 of RFC 9113 lays it out is read as the kind, flags, 31-bit stream and payload it was built from; one of a header block that is over 64 KiB stops the parser at its header |
| `Http2.OtherFramesPass` | internal/domain/http2.go:55-70 | A frame of another kind changes neither evidence nor anything kept from frame to frame |
| `Http2.RefusedFrames` | internal/domain/http2.go:82-96 | Padding that does not fit, and a priority shorter than five bytes, stop the parser |
| `Http2.RefusedBlocks` | internal/domain/http2.go:97-131 | So do a block over 64 KiB, one that does not decode, and a request for the 257th host |
| `Http2.AuthorityMeans` | internal/domain/http2.go:112-121 | The destination is the first non-empty value of an authority or host field, and empty if there is none |
| `Http2.H2Parser.Headers` | internal/domain/http2.go:80-135 | Padding, priority, fragments, the block limit and decoded fields lead to the specified state |
| `Http2.SkipIsFeed` | internal/domain/http2.go:137-147 | Skipping n bytes of an unread frame is feeding any n bytes |
| `Tls.SegmentationIrrelevant` | internal/domain/tls.go:16-61 | Pieces of at most 64 KiB give what all bytes at once give, and the record buffer limit never fires |
| `Tls.HelloIsFramingIndependent` | internal/domain/tls.go:16-61 | However a ClientHello, built from its type, three length bytes and body, is split into records and the records into pieces, its parser is handed exactly that body, once |
| `Tls.RunSplits` | internal/domain/tls.go:23-61 | The record loop over more bytes is the loop over the first ones, resumed |
| `Tls.TlsParser.Feed` | internal/domain/tls.go:16-61 | The loop over records and messages computes the specification's result, whose meaning the rows around this one give |
| `Tls.OthersAreRefused` | internal/domain/tls.go:39-46 | A first message of another type, or of more than 64 KiB, is refused as soon as its header is there |
| `Tls.RefusedRecords` | internal/domain/tls.go:20-33 | A record of another type or version, of no byte or more than 18432, and a buffer over 102400 bytes are refused |
| `Dispatch.DispatchIsLawful` | internal/domain/stream.go:454-530 | Once the kind is chosen every parser state meets the laws reassembly relies on, across upgrades to HTTP/2 and tunnels |
| `Dispatch.EvidenceIsOrderIndependent` | internal/domain/stream.go:287-420 | Two captures of one connection that saw the same stretches and did not fail hold the same evidence, and it is that of one uninterrupted read; this includes captures that ended with their evidence complete, such as a ClientHello, or in an HTTP/2 error |
| `Dispatch.HttpSplits` | internal/domain/stream.go:507-522 | Two calls that fail no stream do what one does, also when the first ends HTTP or errs in HTTP/2 |
| `Dispatch.UpgradedConnection` | internal/domain/stream.go:507-524 | A connection of any requests, an upgrade and any HTTP/2 frames counts every host of either protocol exactly as often as it was asked for |
| `Dispatch.TunnelledConnection` | internal/domain/stream.go:511-516 | After any requests and a CONNECT exactly the later bytes go to the next protocol, with the destination recorded |
| `Dispatch.UpgradeHasPreface` | internal/domain/stream.go:517-519 | HTTP/2 is entered only with its whole preface buffered, so cutting the preface off is in range |
| `Dispatch.H2ErrorsAreNotRecorded` | internal/domain/stream.go:245-248 | Every error stops the stream, and it is recorded as a failure if and only if it is not one of HTTP/2, also in the call that upgrades |
| `Dispatch.H2ErrorHappens` | internal/domain/http2.go:45-53 | An input whose error stops the stream unrecorded |
| `QuicCrypto.Tracker.AddCrypto` | internal/quicinitial/initial.go:387-437 | A fragment is refused for exactly the first reason there is: size, disagreement with the prefix or beyond it with a waiting part, too many parts, too many bytes. Slices of one stream never conflict, and otherwise the crypto prefix is the longest covered one |
| `QuicCrypto.Tracker.Store` | internal/quicinitial/initial.go:409-437 | A fragment beyond the prefix is refused as a conflict if and only if it disagrees with a waiting part, and at a limit if and only if it would exceed it; the sum of part sizes stays exact |
| `QuicCrypto.ConflictMissed` | internal/quicinitial/initial.go:392-420 | A disagreement goes unnoticed if and only if the fragment starts at or before the end of the prefix, agrees with it, and disagrees with a waiting part |
| `QuicCrypto.AppendedOverWaiting` | internal/quicinitial/initial.go:404-408 | An input for which that happens, and what becomes of it |
| `QuicCrypto.Tracker.PullParts` | internal/quicinitial/initial.go:439-459 | Terminates whatever order the map yields, and leaves every part beyond the prefix |
| `QuicCrypto.Tracker.Packet` | internal/quicinitial/initial.go:97-110 | A packet's CRYPTO data goes in in order and is noted; the tracking ends exactly with a complete message or an error, and a message from slices of a stream is that stream's first |
| `QuicCrypto.FragmentOrderIrrelevant` | internal/quicinitial/initial.go:387-459 | Two trackers that saw the same stretches hold the same prefix and the same ClientHello |
| `QuicCrypto.SlicesAccepted` | internal/quicinitial/initial.go:392-420 | Slices of one stream agree with everything held |
| `QuicCrypto.HelloIsStable` | internal/quicinitial/initial.go:461-476 | A message or verdict read from a prefix is the one read from any longer prefix |
| `QuicCrypto.HelloIsUnique` | internal/quicinitial/initial.go:461-476 | Any two trackers of one stream that return a message return the same |
| `QuicCrypto.MessageIsFound` | internal/quicinitial/initial.go:461-476 | From any prefix or extension of a handshake message built from its type, length bytes and body: the message once all of it is there if it is a ClientHello of allowed length, and otherwise which refusal |
| `QuicFrames.VarintRoundTrip` | internal/quicinitial/initial.go:170-184 | An integer reads back as itself in whichever of the four lengths it was sent |
| `QuicFrames.TakeVarint` | internal/quicinitial/initial.go:170-184 | The byte loop computes that value and never reads past the data |
| `QuicFrames.Frames` | internal/quicinitial/initial.go:313-385 | The loop finds the CRYPTO data in order up to the first error |
| `QuicFrames.PayloadGivesCrypto` | internal/quicinitial/initial.go:313-385 | Of any frames packed with any integer lengths, exactly the CRYPTO data is found, in order, and no error |
| `QuicFrames.RefusedKinds` | internal/quicinitial/initial.go:320-381 | Exactly padding, ping, acknowledgements, CRYPTO and connection close are known; any other frame is refused |
| `QuicFrames.RefusedCrypto` | internal/quicinitial/initial.go:347-356 | CRYPTO data shorter than announced are refused (`RefusedRanges` for more than 256 ranges, `RefusedReason` for a reason) |
| `PacketNumber.RecoversExactly` | internal/quicinitial/initial.go:233-247 | Within half a window of the expected number, exactly the sent packet number is recovered |
| `PacketNumber.FirstIsTruncated` | internal/quicinitial/initial.go:233-236 | A first packet number that fits its length is recovered as it is |
| `PacketNumber.NoOverflow` | internal/quicinitial/initial.go:233-247 | No sum it forms exceeds 64 bits |
| `PacketNumber.CandidateBits4` | internal/quicinitial/initial.go:240-241 | The mask and or of the candidate are its arithmetic meaning (likewise for 1 to 3 bytes) |
| `Collector.Collector.PacketAt` | internal/app/app_linux.go:338-614 | A packet is counted whole in one flow or left unindexed, and the latter if and only if its flow is unknown, the table is full and no active flow is disposable; exactly the old flow of the tuple is retired if the packet is a SYN and that flow saw none or one of another number, and nothing otherwise; other flows are untouched or swept |
| `Generations.FlowsAreStretches` | internal/app/app_linux.go:367-447 | Over any run, the flows of a tuple are the stretches of its packets between SYNs of a new number, as many and in their order; each has the packet count, byte sums, SYN, ends, answer and closing of its own stretch |
| `Generations.WhatMakesRoom` | internal/app/attempts.go:98-106 | In terms of its packets a flow is disposable if and only if it was reset, finished by both ends or an unanswered attempt, or at most two datagrams with bytes in one direction alone |
| `Collector.AttemptMeans` | internal/app/connect_result.go:56-64 | The entry of an attempt names its ends, holds no packet, can make room, and has ended if and only if it failed |
| `Collector.Collector.Evict` | internal/app/attempts.go:111-130 | Removes the oldest min(candidates, maxFlows/10+1) disposable flows and nothing else, whether or not the flag skipped the scan |
| `Collector.SweepsATenth` | internal/app/attempts.go:108-126 | A sweep frees just over a tenth of the limit, or all there is |
| `Collector.Collector.Conservation` | internal/app/app_linux.go:338-430 | In every reachable state every captured byte is in a flow, expired or unindexed, the table keeps its bound and keys, the flag implies no disposable flow, and every process I/O account balances |
| `Collector.Collector.ConnectResult` | internal/app/connect_result.go:30-66 | The exact table after a connection result, for base and other collectors, including late results and a full table |
| `Collector.Collector.RecordDrop` | internal/app/drops_linux.go:15-47 | The exact table after a kernel drop; it frees no room |
| `Collector.Collector.EventAt` | internal/app/app_linux.go:834-917 | An event's bytes are charged once to a process or as unindexed, and an indexed event's bytes reach exactly the flow, the queue or the unmatched total, as the table left by the attempt's result decides |
| `Collector.Collector.Account` | internal/app/app_linux.go:876-912 | The process accounts and the routing of an event's bytes, with both bounds |
| `Collector.WhereBytesGo` | internal/app/app_linux.go:903-917 | An event's bytes reach its flow if that is open or closed under two seconds ago, wait if no flow is known and fewer than 4096 samples wait, and are unmatched otherwise |
| `Ledgers.AttachedByProcess` | internal/app/app_linux.go:801-811 | Each process gets exactly its own fresh bytes, in their direction |
| `Collector.OpeningTakes` | internal/app/app_linux.go:414-416 | A datagram or a SYN opens its flow with each process's fresh waiting bytes, any other packet with none |
| `Collector.Collector.AttachPendingIO` | internal/app/app_linux.go:801-811 | Fresh samples go to the flow, stale ones to unmatched, and none stays |
| `Collector.Collector.FlushPendingKey` | internal/app/app_linux.go:793-799 | All samples of a key become unmatched |
| `Collector.Collector.ExpirePendingIO` | internal/app/app_linux.go:813-830 | Exactly the fresh samples stay, and no empty queue |
| `Collector.Collector.Expire` | internal/app/app_linux.go:996-1080 | What is left of samples, processes, active and retired flows is exactly what was seen lately, and all accounts still balance |
| `Collector.WhatStays` | internal/app/app_linux.go:1051-1076 | A flow stays if and only if its last packet is at most a minute old when it is closed and five otherwise, with all it had but the I/O of forgotten processes |
| `Collector.WhoIsForgotten` | internal/app/app_linux.go:1017-1027 | A process is forgotten once nothing was seen of it for more than five minutes |
| `Collector.WhatWaits` | internal/app/app_linux.go:813-830 | Exactly the samples of the last two seconds go on waiting, and none when all are flushed |
| `Collector.Collector.LinkNAT` | internal/app/nat_linux.go:169-190 | For either tuple, the captured flow is marked once with the entry and gets what waited for the other tuple, unless it was linked already or both are captured |
| `Collector.LinkingIsOnce` | internal/app/nat_linux.go:169-190 | Linking adds and removes no flow, leaves nothing waiting for the translated tuple, and done again changes nothing |
| `Collector.ChooseVictims` | internal/app/attempts.go:115-126 | The oldest disposable flows, each once, as many as may go |
| `Collector.PrefixIsOldest` | internal/app/attempts.go:125-126 | A prefix of the candidates sorted by age is no younger than the rest |
| `Collector.SweptRoom` | internal/app/app_linux.go:378-392 | After a sweep of a full table there is room if and only if something was disposable |
| `Collector.AgedCandidates` | internal/app/app_linux.go:1038-1060 | Ageing makes no flow disposable, so the flag may stay |
| `Ledgers.AttachedTotal` | internal/app/app_linux.go:801-811 | Attached plus stale bytes are what waited |
| `Ledgers.TrimmedKeeps` | internal/app/app_linux.go:813-830 | Dropping stale samples keeps the queue's account |
| `Ledgers.OwnedKeeps` | internal/app/app_linux.go:876-900 | Charging an indexed process keeps the process account, its key sets and its bound |
| `Ledgers.DroppedKeeps` | internal/app/attempts.go:133-144 | A removed flow's bytes move to the expired totals |
| `Ledgers.StripTotal` | internal/app/app_linux.go:1029-1037 | Forgetting processes never adds I/O to a flow |
| `FlowTable.ClosingTakesBothEnds` | internal/app/app_linux.go:591-611 | A packet leaves a flow closed if and only if it was, or it is a reset, or the FIN that completes both ends |
| `FlowTable.AnswerSettles` | internal/app/app_linux.go:466-471 | A target's SYN-ACK makes an attempt no longer disposable |
| `FlowTable.RetireTotal` | internal/app/app_linux.go:371-377 | Retiring a generation moves its bytes and loses none |
| `Endings.TickKeeps` | internal/app/host_view_linux.go:85-173 | Over any tick in any map order: no ending is recorded twice, recorded ones stay, IDs are kept or new, and every ID that is gone and not continued has its ending recorded |
| `Endings.EndsAreFinal` | internal/app/host_view_linux.go:122-137 | An end that was shown never changes |
| `Endings.PlaceKeeps` | internal/app/host_view_linux.go:101-141 | Placing one connection keeps the invariant of a tick in progress, with shared snapshots |
| `Endings.LaterStaysReady` | internal/app/host_view_linux.go:101-141 | Writing one snapshot in place leaves those of later connections usable |
| `Endings.VanishKeeps` | internal/app/host_view_linux.go:142-157 | An ID that is gone is recorded once and disturbs no snapshot shown or recorded |
| `Endings.ShownAsGoingOn` | internal/app/host_view_linux.go:101-141 | After any tick, in any map order, a connection is shown as going on with its own contents and not recorded if and only if it says so, is not due to end and inherits no end |
| `Endings.EndingsTellWhy` | internal/app/host_view_linux.go:62-76 | Every ending that a tick records, in any map order, is of a connection that failed or closed two seconds before or inherits an end, or of a gone ID; without inheritance it is the failure, "reset" or "fin" if and only if the connection closed with or without a reset, "idle" if and only if it was open and quiet for over five minutes, and "evicted" otherwise |
| `Endings.CountedWithItsOwn` | internal/app/host_view_linux.go:119-121 | After any tick an ID stands for the bytes and the listed name of its own connection, unless that inherits an end |
| `Endings.ObservationsKeepTheirID` | internal/app/host_view_linux.go:102-118 | The next tick knows every observation by the ID its connection got in this one |
| `Endings.FirstMeans` | internal/app/host_view_linux.go:102-113 | The ID that a connection continues is that of its first observation that has one |
| `Endings.SplitLivesOnAsEnded` | internal/app/host_view_linux.go:112-133 | An input for which a connection that goes on inherits the end of one that came before it |
| `HostView.HostView.UpdateAt` | internal/app/host_view_linux.go:85-173 | The loops compute the specified view for some order of the maps; every ending recorded tells why its connection ended; the expired totals, with and without a listed name, grow by exactly the totals of what is gone; and all invariants hold |
| `HostView.HostView.Advance` | internal/app/host_view_linux.go:85-293 | A whole tick obeys the law: endings and what their snapshots own stay, IDs are kept or new, what is gone was recorded or goes on under another ID, shown ends are final |
| `HostView.HostView.EndingsOnce` | internal/app/host_view_linux.go:43-52 | At any time each ending is recorded once, its snapshot owns what it did and refers to the same evidence, something shown has ended iff it is recorded, and history is the last 5000 |
| `HostView.HostView.RecordedNamesFollow` | internal/app/host_view_linux.go:121-127 | What a recorded snapshot shows at two moments is the same if and only if it has no evidence or that says the same name |
| `HostView.RecordedNameMoves` | internal/app/host_view_linux.go:397-426 | A run in which the name of a recorded ending changes |
| `HostView.HostView.ChangeLogProtocol` | internal/app/changes.go:58-136 | At any time, for every ID ever given out: one "new" that came first, at most one "end" while shown, exactly one by the time it is gone |
| `HostView.HostView.Remember` | internal/app/host_view_linux.go:43-52 | Both rings keep the last 5000 endings |
| `HostView.HostView.ShowOne` | internal/app/host_view_linux.go:122-139 | Which snapshot an ID shows, what it then holds, and whether an ending is recorded |
| `HostView.HostView.VanishEvery` | internal/app/host_view_linux.go:142-157 | Ends exactly the IDs that are neither shown nor absorbed and adds each one's totals once |
| `HostView.WhoIsGone` | internal/app/host_view_linux.go:142-157 | After any tick the IDs that end are exactly those that are shown no more although no observation of the tick was known by them, and no other ID that is not shown has an ending recorded |
| `HostView.HostView.Collect` | internal/app/host_view_linux.go:265-292 | Every group becomes one snapshot holding its merged contents; only ongoing snapshots of the group's own ID are reused, and recorded ones are never touched |
| `HostView.HostView.Destination` | internal/app/host_view_linux.go:268-279 | A snapshot is reused if and only if it is the ongoing one of the group's ID, unused, and nothing in the group failed |
| `HostView.HostView.DetectChanges` | internal/app/changes.go:58-136 | Whatever order the maps yield, the log of every ID keeps to the protocol |
| `HostView.HostView.CompareOne` | internal/app/changes.go:86-119 | Which fields are announced, and when a name has settled |
| `HostView.TickLaw` | internal/app/host_view_linux.go:85-173 | The law of a tick, for any groups, times, evidence and map orders |
| `Changes.ObserveKeeps` | internal/app/changes.go:65-120 | While ends are final, looking at an ID keeps its log proper and what is kept in agreement with what is shown |
| `Changes.AnnouncedIffChanged` | internal/app/changes.go:86-103 | Over any looks at an announced ID, state, process, drops and end are each announced, once, if and only if they differ from the look before |
| `Changes.NewWaits` | internal/app/changes.go:68-85 | A new ID is announced at the first look at which it has ended or two seconds have passed since it was first seen, together with its end if it has one |
| `Changes.NameSettles` | internal/app/changes.go:104-115 | A changed name is announced at exactly the first look at which it has been shown without a break for two seconds |
| `Changes.LossIsAnnounced` | internal/app/changes.go:104-115 | The loss of a name is announced at once, unless another name waits |
| `Changes.PartCompletes` | internal/app/changes.go:121-134 | By the tick an ID disappears its log holds one "new" and one "end" |
| `Changes.NextOrderly` | internal/app/changes.go:58-64 | A new tick's IDs start with empty logs and the others' logs carry over |
| `Grouping.GroupObservations` | internal/app/host_view_linux.go:295-341 | A partition of the candidates into groups whose members fit pairwise; one is opened only when no group there was accepts its candidate |
| `Grouping.IndexIsComplete` | internal/app/host_view_linux.go:304-319 | The SYN index and the midstream list miss no group a scan of all would find |
| `Grouping.GroupingIsSound` | internal/app/host_view_linux.go:295-341 | However candidates join, groups stay a partition and pairwise coherent |
| `Grouping.MembersMean` | internal/app/host_view_linux.go:343-359 | Any two members of a group come from different interfaces, saw no different SYNs, and neither began more than two seconds after the other was last seen |
| `Grouping.RejectionMeans` | internal/app/host_view_linux.go:343-359 | Nothing else makes a group reject a candidate |
| `Grouping.OpenedAlone` | internal/app/host_view_linux.go:304-333 | A candidate that opens a group was accepted by none there was, and is alone in it |
| `Grouping.FindGroup` | internal/app/host_view_linux.go:303-327 | Finds an accepting group if and only if one exists: without a SYN the first of all, with one the first listed under its number, or if none there accepts it the first midstream one |
| `Grouping.SameObservedConnection` | internal/app/host_view_linux.go:343-359 | True if and only if the candidate fits every member by interface, SYN number and the two-second windows |
| `Retransmit.GuardRefinesScan` | internal/app/tcp_health.go:238-248 | Within 2^31, the guarded verdict is that of scanning every range, and that some byte repeats |
| `Retransmit.ScanIsRepeats` | internal/app/tcp_health.go:17-20 | Within 2^31, a scan of the ring finds an overlap if and only if the payload's bytes intersect one of the last 128 spans |
| `Retransmit.FurthestMoves` | internal/app/tcp_health.go:249-252 | The stored end is always the furthest one recorded in that direction |
| `Retransmit.GuardMissesExactly` | internal/app/tcp_health.go:238-248 | Guard and full scan disagree if and only if the scan finds something and the payload starts more than 2^31, up to whole turns, behind the furthest end |
| `Retransmit.GuardMissesFarBack` | internal/app/tcp_health.go:238-248 | An input for which that happens |
| `Retransmit.TcpHealth.Observe` | internal/app/tcp_health.go:203-262 | A packet counts at most once, for a repeated SYN or repeated payload of its own direction; both directions and the count are always what the run so far makes of them |
| `Retransmit.TcpHealth.CountsRepeats` | internal/app/tcp_health.go:203-262 | At any time, if the payloads of a run stayed within 2^31 of one another, the count is the number of its packets whose SYN number, or some byte of whose payload, came before in the same direction |
| `Retransmit.RepeatedMeans` | internal/app/tcp_health.go:203-262 | What is counted: a packet that is a SYN with the number of its direction's last SYN, or that shares a byte of the stream with one of the last 128 whole payloads of its direction, a SYN taking one number before its payload |
| `Retransmit.LastSynMeans` | internal/app/tcp_health.go:216-222 | The last SYN of a direction is the one after which there is none |
| `Rings.PushHolds` | internal/app/tcp_health.go:253-258 | A growing then overwriting list holds exactly the last entries, oldest at the cursor |
| `KernelState.OrderIrrelevant` | internal/app/tcp_health.go:45-75 | Events in any order leave the same counters and the same sample time |
| `KernelState.CountersAreHighest` | internal/app/tcp_health.go:71-74 | Each counter is the highest any event reported |
| `KernelState.MetricsAreLatest` | internal/app/tcp_health.go:50-70 | The metrics, but for the tick rate, are those of the latest sample, and of the last to arrive among those of that time |
| `KernelState.RateMeans` | internal/app/tcp_health.go:57-70 | The tick rate is worked out from a later sample with more ticks unless it would exceed ten thousand, and is otherwise kept; an older sample changes no metric |
| `KernelState.RateIsRecovered` | internal/app/tcp_health.go:60-67 | Samples of a steady clock, whole seconds apart, give its rate |
| `Pcapng.RoundTrip` | internal/pcapng/reader.go:22-106 | Reading a recording yields exactly its packets, in order and with no error, if and only if every name is non-empty and no packet precedes the epoch |
| `Pcapng.RecordingsFail` | internal/pcapng/reader.go:58-97 | An input for each way in which a recording does not read back |
| `Pcapng.RefusedBlocks` | internal/pcapng/reader.go:37-47 | A block of no allowed length and one that is cut short are refused (`RefusedSections` for a missing or second section) |
| `Pcapng.RefusedPackets` | internal/pcapng/reader.go:80-86 | A packet of an unknown interface, of no or too many bytes, of more than were on the wire, or that does not fit its block is refused |
| `Pcapng.Writer.Packet` | internal/pcapng/writer.go:66-98 | Appends the packet whole or refuses it with the first applicable error and leaves the recording unchanged; a limit error means that it would not fit |
| `Pcapng.Writer.New` | internal/pcapng/writer.go:30-62 | Opens if and only if there are interfaces, few enough, with short enough names, and the header fits; the output never exceeds the limit even on failure |
| `Pcapng.Writer.ReadsBack` | internal/pcapng/reader.go:22-106 | At any time what a writer wrote reads back as what it accepted, under that condition |
| `Pcapng.PacketAligned` | internal/pcapng/writer.go:102-105 | Packet blocks are always aligned, so that error cannot occur (`InterfaceAligned` for interfaces) |
| `Pcapng.PacketRead` | internal/pcapng/reader.go:80-103 | A written packet block reads back as itself or fails for its time |
| `Pcapng.InterfaceRead` | internal/pcapng/reader.go:58-79 | A written interface block reads back as its name, or fails for an empty one |
| `Pcapng.SectionBytes` | internal/pcapng/writer.go:38-44 | A recording starts with these 28 bytes |
| `Pcapng.InterfaceFields` | internal/pcapng/writer.go:49-54 | Where an interface block holds its link type, snap length, name and resolution, byte for byte |
| `Pcapng.PacketFields` | internal/pcapng/writer.go:79-93 | Where a packet block holds its interface, time, lengths, frame and comment |
| `Pcapng.LittleEndian` | internal/pcapng/writer.go:79-88 | A number's least byte comes first |
| `Pcapng.Read` | internal/pcapng/reader.go:22-106 | The loop computes the specified reading, packets visited before an error included |
| `Pcapng.ParseOptions` | internal/pcapng/reader.go:108-129 | The loop visits the specified options or fails |
| `StreamHub.Hub.NoGaps` | internal/app/stream_socket_linux.go:171-219 | At any time a subscriber was sent its handshake and then a gapless run of the frames broadcast since, all of them while subscribed, and nothing before a handshake |
| `StreamHub.Hub.Broadcast` | internal/app/stream_socket_linux.go:200-214 | Every subscriber gets the frame or is closed and removed, whatever its writer did meanwhile |
| `StreamHub.Hub.Greet` | internal/app/stream_socket_linux.go:333-360 | Everyone pending is greeted once or closed; a failed encoding greets nobody and ends the run |
| `StreamHub.Hub.Tick` | internal/app/app_linux.go:1734-1817 | Adopt, greet, broadcast: after a tick everyone subscribed is greeted and was sent all its frames, or the run ended and all are closed |
| `StreamHub.Hub.Adopt` | internal/app/stream_socket_linux.go:171-181 | Everyone who was accepted becomes a subscriber that still owes its handshake |
| `StreamHub.Client.Offer` | internal/app/stream_socket_linux.go:58-70 | Queues the frame if and only if the client is open and has one of 1024 places left |
| `StreamHub.Hub.Meanwhile` | internal/app/stream_socket_linux.go:42-54 | What writers and peers do between ticks changes none of this |

## Left out

- Sockets, rings, probes, clocks and goroutine scheduling: time and captured data are parameters, and a client's writer acts only between the hub's steps on that client, which is as general because steps on different clients commute.
- Classification of a stream's first bytes, SOCKS and PROXY preambles, opportunistic TLS: the parsers are modelled from where the kind is chosen, since a partial line may be accepted there that the whole would not.
- Parsing inside a request header, a Host value, a chunk size text, an HPACK block, a ClientHello body: functions given to the models, about which nothing is assumed.
- QUIC key derivation, header protection and packet opening, splitting a datagram into packets, and the reset on a new connection ID: the model starts from one connection's plaintexts.
- Timeouts of partial parses (`Tick`) and server-side streams.
- Evidence other than Host counts, the CONNECT destination and gRPC; labels and fingerprints.
- TcpStream.Stream.Add: demands segments shorter than 2^31 less 64 KiB and not exactly 2^31 behind; the first is beyond any packet, the second is where the source panics.
- The flow table holds flows as values in a map, so sharing of a flow object with code outside the collector is not captured; the host view's shared snapshots are objects.
- Roles, wildcards, DNS, NAT discovery, ICMP and ARP details, inbound attempt summaries, DNS hints: they touch none of the accounts.
- 64-bit overflow of byte and packet counters.
- HostView.HostView.Collect: groups and the contents of a merged snapshot are given; which observation supplies each merged field is not modelled, only that a merged flow has failed iff a member has.
- What a connection's name evidence says is a parameter of each tick: snapshots share the evidence object with the interfaces' flows, which feed it between ticks, and the model keeps the reference alone.
- Change signatures are abstract values, so collisions of the hashed sets are outside the model.
- SYN round trip time and the display of kernel metrics.
- A recording visitor that fails, and an output that writes short.
- Socket file handling, frame encoding and the choice of frame kinds.
