# TraceReplay for ns-3, modelled in Dafny

TraceReplay replays the application-layer behaviour of recorded TCP
connections inside an ns-3 simulation. It has four parts, and this project
models each of them and proves what each promises.

- **TraceReplayHelper** analyses the packets of a capture. It keeps a table
  from connection 4-tuples to connection records (`m_connMap`). It cuts each
  connection into alternating client and server *cycles*. A cycle is a number
  of packets and bytes sent in one direction before the other side answers.
  It then writes the table out as a trace file. `Install` reads a trace file
  and sets up one client/server application pair per connection.
- **TraceReplayPacket** is the packet record the helper produces. It holds a
  size, a delay, and a list of parallel connections with the byte counts they
  had reached when the packet was recorded.
- **TraceReplayClient** sends its request cycles and waits for the expected
  reply bytes.
- **TraceReplayServer** waits for the request bytes and sends its reply
  cycles.

A delayed packet is held back until every parallel application has reached
the byte count recorded for it.

## Modules

| file | module | what it holds |
|---|---|---|
| `wrappers.dfy` | `Wrappers` | `Option` and `Result` |
| `utility.dfy` | `Utility` | `TraceReplayPacket` as a class over a `seq` of entries; `Packet` as the value copy stored in vectors; `ExpectedBytes`, the port-pair lookup |
| `sums.dfy` | `Sums` | sums of counts and of packet sizes |
| `conn_table.dfy` | `ConnTable` | connection ids and `operator<`; the map's iteration order; `ConnInfo`; `CalculatePacketDelay`; `ProcessPacket` and `ProcessPacketList` as functions on the table; the final-cycle flush |
| `trace_file.dfy` | `TraceFile` | trace-file lines; `CheckRegex`; what `Install` reads and what `PrintTraceFile` writes, each as functions with the imperative readers and writers proved equal to them |
| `round_trip.dfy` | `RoundTrip` | reading back what `PrintTraceFile` wrote |
| `helper.dfy` | `Helper` | the `TraceReplayHelper` class: `ProcessPacket`, `ProcessPacketList`, `PrintTraceFile`, `ConvertPcapToTrace`, `Install` |
| `replay.dfy` | `Replay` | the parallel-progress gate, continuations, and loading the next expected total |
| `client.dfy` | `Client` | `TraceReplayClient` |
| `server.dfy` | `Server` | `TraceReplayServer` |
| `findings.dfy` | `Findings` | the source as written where it departs from what it evidently intends |

### Applications and their step functions

Each application is a `class` whose fields are the source's members:
- `numReq`/`numRep`, `expByte` and the packet list as sequences;
- the iterators as indices into them;
- the counters `totRecByte`, `totExpByte` and `totByteCount`.

Each handler (`Setup`, `ScheduleTx`, `SendPacket`, `ReceivePacket`,
`HandleAccept`, `StopApplication`) is a `method`. It updates those fields and
returns a `Next` value, which says what the source leaves pending:
- a `SendPacket` scheduled after the packet's delay;
- a retry after 10 µs or after the packet's transmission time;
- the receive callback installed;
- the socket closed;
- the application stopped.

Each method is proved against a step function on a state datatype
(`ScheduleTxStep`, `SendPacketStep`, ...). The lemmas are stated about those
functions.

### Inputs instead of sockets, scheduler and other applications

The socket and the scheduler are inputs to the model:
- the send buffer's free space is `txAvailable`;
- what one `ReceivePacket` call drains from the socket is a sequence of sizes;
- the parallel applications are a sequence of port pairs with their byte totals.

### Typed lines and trace-file layout

A trace-file line is a typed value: a count, a connection header, a packet, a
parallel entry, a comment, or another line. Each regular expression `Install`
passes to `CheckRegex` becomes a predicate on the line's kind.

The header comment `PrintTraceFile` writes announces a "number of client"
level with a loop over clients, which the code does not write, and it does
not mention the parallel-connection count and entry lines that follow a
delayed packet, which the code does write. The model follows the code:
- one count of connections;
- for each side: its packets, then its own per-cycle packet counts, then the
  bytes it expects from its peer per cycle.

## Model

| member | source | states |
|---|---|---|
| Utility.ExpectedBytes | ns-3.27/src/applications/model/trace-replay-utility.cc:38-50 | the bytes recorded for a port pair are 0 or the count of an entry for exactly that pair |
| Utility.ExpectedBytesFirstMatch | ns-3.27/src/applications/model/trace-replay-utility.cc:41-47 | when entry i is the first for the pair, the lookup returns its byte count |
| Utility.ExpectedBytesNoMatch | ns-3.27/src/applications/model/trace-replay-utility.cc:40-49 | with no entry for the pair the lookup returns 0 |
| Utility.ExpectedBytesAfterAppend | ns-3.27/src/applications/model/trace-replay-utility.cc:71-78 | appending an entry leaves every pair that already had an entry unchanged, and makes a new pair find the appended count |
| Utility.TraceReplayPacket.constructor | ns-3.27/src/applications/model/trace-replay-utility.cc:26-30 | a new packet has size 0, delay 0 and no parallel entries |
| Utility.TraceReplayPacket.AddParallelConnection | ns-3.27/src/applications/model/trace-replay-utility.cc:71-78 | exactly one entry is appended at the end; the count grows by one; GetConnectionId and GetByteCount at the old count return the new entry; earlier entries, size and delay are unchanged |
| Utility.TraceReplayPacket.SetSize | ns-3.27/src/applications/model/trace-replay-utility.cc:99-102 | GetSize returns the size set; delay and parallel list are untouched |
| Utility.TraceReplayPacket.SetDelay | ns-3.27/src/applications/model/trace-replay-utility.cc:93-96 | GetDelay returns the delay set; size and parallel list are untouched |
| Utility.TraceReplayPacket.GetByteCountFor | ns-3.27/src/applications/model/trace-replay-utility.cc:38-50 | the search loop with its early exit returns the lookup value: the first matching entry's count, or 0 |
| ConnTable.LessIsStrictTotalOrder | ns-3-dev/src/applications/helper/trace-replay-helper.cc:75-83 | the lexicographic order on 4-tuples is irreflexive, asymmetric, transitive and total, so it is a valid map order |
| ConnTable.SortedKeys | ns-3-dev/src/applications/helper/trace-replay-helper.cc:445 | the map's iteration order is strictly increasing and visits exactly the keys |
| ConnTable.SortedUnique | ns-3-dev/src/applications/helper/trace-replay-helper.cc:445 | only one strictly increasing sequence visits a given set of keys, so the iteration order is determined |
| ConnTable.KeysInOrder | ns-3-dev/src/applications/helper/trace-replay-helper.cc:291 | the loop that walks the map yields the keys in iteration order |
| ConnTable.NewConnInfo | ns-3-dev/src/applications/helper/trace-replay-helper.cc:374-380 | a new connection starts with zero counters and client-to-server direction |
| ConnTable.NewConnInfoConsistent | ns-3-dev/src/applications/helper/trace-replay-helper.cc:374-381 | a new connection satisfies the accounting invariant |
| ConnTable.AdvanceCycleKeepsAccounts | ns-3-dev/src/applications/helper/trace-replay-helper.cc:236-281 | continuing a direction or switching it, and then recording the packet, keeps the invariant: closed cycles plus the open cycle account for every recorded packet and byte of each side |
| ConnTable.CalculatePacketDelay | ns-3-dev/src/applications/helper/trace-replay-helper.cc:200-225 | the delay is 0 or at least 1 µs; it equals the gap exactly when the packet is not a timeout, is an HTTP request or has a gap over one second, and the gap is at least 1 µs; otherwise it is 0 |
| ConnTable.ParallelEntriesExactly | ns-3-dev/src/applications/helper/trace-replay-helper.cc:290-302 | the entries attached to a packet are exactly those of the connections with the same IPs, a different port pair and a positive byte total |
| ConnTable.ParallelEntriesLookup | ns-3-dev/src/applications/helper/trace-replay-helper.cc:296-300 | looking a connection up in the attached list gives its byte total if it is parallel, else 0 |
| ConnTable.ProcessPacketEffect | ns-3-dev/src/applications/helper/trace-replay-helper.cc:228-317 | the keys are unchanged; the packet's connection gains exactly the packet's size and takes the packet time; the packet goes to exactly one of the client and server lists by direction; other connections are untouched |
| ConnTable.BuildPacketOk | ns-3-dev/src/applications/helper/trace-replay-helper.cc:230-303 | a built packet has a positive size and a delay that is 0 or at least 1 µs, and has parallel entries only when delayed |
| ConnTable.ProcessPacketKeepsTable | ns-3-dev/src/applications/helper/trace-replay-helper.cc:228-317 | processing a packet of positive size keeps every connection's accounting invariant |
| ConnTable.InsertionRule | ns-3-dev/src/applications/helper/trace-replay-helper.cc:372-388 | a zero-size line adds a new connection when neither the id nor its reverse is present, and otherwise changes nothing |
| ConnTable.ProcessedRowKeepsTable | ns-3-dev/src/applications/helper/trace-replay-helper.cc:365-389 | one line of the packet list keeps the table well formed |
| ConnTable.FlushBalances | ns-3-dev/src/applications/helper/trace-replay-helper.cc:448-457 | after the final flush each side's cycle counts sum to its packets and its cycle bytes to its bytes; the client has as many cycles as the server or one more |
| ConnTable.FlushAll | ns-3-dev/src/applications/helper/trace-replay-helper.cc:445-457 | the flush touches every connection and keeps the keys |
| TraceFile.SkipComments | ns-3-dev/src/applications/helper/trace-replay-helper.cc:572-582 | the read position only moves forward and stays within the file |
| TraceFile.SkipCommentsMeans | ns-3-dev/src/applications/helper/trace-replay-helper.cc:572-582 | only comment lines are skipped, and skipping stops at the first line that is not one |
| TraceFile.NextMatchingMeans | ns-3-dev/src/applications/helper/trace-replay-helper.cc:569-592 | reading succeeds if and only if a matching line follows the comments; it then returns that line and the position after it |
| TraceFile.CheckRegex | ns-3-dev/src/applications/helper/trace-replay-helper.cc:569-592 | the loop over lines returns what NextMatching specifies, with "corrupted" when the line does not match |
| TraceFile.ParsePacket | ns-3-dev/src/applications/helper/trace-replay-helper.cc:686-719 | a packet read has a non-negative delay and no parallel entries unless its delay is positive |
| TraceFile.ConnectionPort | ns-3-dev/src/applications/helper/trace-replay-helper.cc:665 | connection j gets the starting port plus j, wrapped to 16 bits |
| TraceFile.ConnectionPortsDistinct | ns-3-dev/src/applications/helper/trace-replay-helper.cc:665 | fewer than 65536 connections get pairwise distinct ports |
| TraceFile.ParseConnection | ns-3-dev/src/applications/helper/trace-replay-helper.cc:632-861 | a connection read is set up on the port it was given |
| TraceFile.ParseConnectionsFromStep | ns-3-dev/src/applications/helper/trace-replay-helper.cc:630-631 | reading connections is one connection followed by the rest |
| TraceFile.ParseConnectionsFromFails | ns-3-dev/src/applications/helper/trace-replay-helper.cc:630-631 | a corrupt connection makes the whole read fail with that error |
| TraceFile.ReadCount | ns-3-dev/src/applications/helper/trace-replay-helper.cc:624-627 | reading a count line returns what ParseCount specifies |
| TraceFile.ReadCountList | ns-3-dev/src/applications/helper/trace-replay-helper.cc:722-738 | reading a count and that many counts returns what ParseCountList specifies |
| TraceFile.ReadParallelList | ns-3-dev/src/applications/helper/trace-replay-helper.cc:697-714 | the loop appends exactly the parsed entries to the packet and keeps its size and delay |
| TraceFile.ReadPacket | ns-3-dev/src/applications/helper/trace-replay-helper.cc:686-719 | reading a packet returns what ParsePacket specifies |
| TraceFile.ReadSide | ns-3-dev/src/applications/helper/trace-replay-helper.cc:676-756 | reading one side returns what ParseSide specifies |
| TraceFile.ReadConnection | ns-3-dev/src/applications/helper/trace-replay-helper.cc:632-861 | reading one connection returns what ParseConnection specifies |
| TraceFile.ReadNextConnection | ns-3-dev/src/applications/helper/trace-replay-helper.cc:630-862 | one iteration of the connection loop keeps the read on course for the whole file's result |
| TraceFile.ReadConnections | ns-3-dev/src/applications/helper/trace-replay-helper.cc:630-862 | the connection loop returns what ParseConnectionsFrom specifies |
| TraceFile.ReadTrace | ns-3-dev/src/applications/helper/trace-replay-helper.cc:617-864 | reading a whole trace returns what ParseTrace specifies |
| TraceFile.Header | ns-3-dev/src/applications/helper/trace-replay-helper.cc:406-440 | the file starts with 35 comment lines |
| TraceFile.CountLines | ns-3-dev/src/applications/helper/trace-replay-helper.cc:500-503 | one count line per value, in order |
| TraceFile.ParallelLines | ns-3-dev/src/applications/helper/trace-replay-helper.cc:490-494 | one line per parallel entry, in order, with its ports and byte count |
| TraceFile.WriteCountList | ns-3-dev/src/applications/helper/trace-replay-helper.cc:498-503 | the loop writes the count followed by the values |
| TraceFile.WritePacket | ns-3-dev/src/applications/helper/trace-replay-helper.cc:484-495 | the packet line, then its parallel list only when the delay is positive |
| TraceFile.WriteSide | ns-3-dev/src/applications/helper/trace-replay-helper.cc:479-510 | one side's packets and its two count lists, in the order Install reads them |
| TraceFile.WriteConnection | ns-3-dev/src/applications/helper/trace-replay-helper.cc:459-543 | a connection's header line and its two sides |
| RoundTrip.CountListAt | ns-3-dev/src/applications/helper/trace-replay-helper.cc:722-738 | a written count list reads back as the same list |
| RoundTrip.PacketAt | ns-3-dev/src/applications/helper/trace-replay-helper.cc:686-719 | a packet whose size and delay are written exactly reads back as the same packet |
| RoundTrip.SideAt | ns-3-dev/src/applications/helper/trace-replay-helper.cc:676-756 | a written side reads back as the same packets and count lists |
| RoundTrip.ConnectionAt | ns-3-dev/src/applications/helper/trace-replay-helper.cc:632-861 | a written connection reads back as the pair Install sets up for it |
| RoundTrip.HeaderSkipped | ns-3-dev/src/applications/helper/trace-replay-helper.cc:624-627 | Install skips the written header and reads the connection count |
| RoundTrip.SortedKeysCount | ns-3-dev/src/applications/helper/trace-replay-helper.cc:442 | the count written is the number of connections the loop writes |
| RoundTrip.TraceAt | ns-3-dev/src/applications/helper/trace-replay-helper.cc:617-864 | a header, a count and the written connections read back as one setup per connection, on consecutive ports |
| RoundTrip.TraceReadsBack | ns-3-dev/src/applications/helper/trace-replay-helper.cc:401-546 | a printed trace file, its numbers written exactly, reads back connection by connection, in map order |
| RoundTrip.ConsistentWritable | ns-3-dev/src/applications/helper/trace-replay-helper.cc:448-457 | a flushed well-formed connection can be written so that it reads back |
| RoundTrip.InstallReadsBackTrace | ns-3-dev/src/applications/helper/trace-replay-helper.cc:600-605 | after converting a capture, with the trace's numbers written exactly, Install reads back one pair per connection, in map order, on ports from the starting port |
| RoundTrip.InstalledPairBalanced | ns-3-dev/src/applications/helper/trace-replay-helper.cc:758-761 | in each installed pair, every cycle count sums to that side's packets, each side expects exactly the bytes its peer sends, and the cycles alternate |
| Helper.ChooseTraceSource | ns-3-dev/src/applications/helper/trace-replay-helper.cc:600-615 | a capture wins over a trace file; a trace file is used only without a capture; with neither, the result is an error |
| Helper.ProcessedRowsKeepTable | ns-3-dev/src/applications/helper/trace-replay-helper.cc:320-391 | the whole packet list keeps the table well formed |
| Helper.ProcessedRowsFileEveryRow | ns-3-dev/src/applications/helper/trace-replay-helper.cc:329-390 | no connection is removed, and every line's id or its reverse ends up in the table |
| Helper.TraceReplayHelper.constructor | ns-3-dev/src/applications/helper/trace-replay-helper.cc:49-64 | the starting port is 49153 and the table is empty |
| Helper.TraceReplayHelper.SetPortNumber | ns-3-dev/src/applications/helper/trace-replay-helper.cc:122-126 | sets the starting port and nothing else |
| Helper.TraceReplayHelper.AddParallelConnections | ns-3-dev/src/applications/helper/trace-replay-helper.cc:290-302 | the loop attaches exactly the parallel entries, in map order |
| Helper.TraceReplayHelper.ProcessPacket | ns-3-dev/src/applications/helper/trace-replay-helper.cc:228-317 | the table becomes ProcessedTable, whose effect ProcessPacketEffect states |
| Helper.TraceReplayHelper.ProcessPacketList | ns-3-dev/src/applications/helper/trace-replay-helper.cc:320-398 | the loop applies every line in order |
| Helper.TraceReplayHelper.FlushAndPrintConnection | ns-3-dev/src/applications/helper/trace-replay-helper.cc:447-543 | one iteration flushes one more connection and writes its text |
| Helper.TraceReplayHelper.PrintTraceFile | ns-3-dev/src/applications/helper/trace-replay-helper.cc:401-546 | every connection is flushed, and the output is the header, the count and each flushed connection in map order |
| Helper.TraceReplayHelper.ConvertPcapToTrace | ns-3-dev/src/applications/helper/trace-replay-helper.cc:558-566 | the HTTP and timeout frames are recorded, the packet list is processed and the table flushed and printed |
| Helper.TraceReplayHelper.Install | ns-3-dev/src/applications/helper/trace-replay-helper.cc:595-865 | a capture is converted and its printed trace read back (one pair per connection for a well-formed table); otherwise the given trace is read; with neither the result is an error |
| Replay.CheckParallelProgress | ns-3.27/src/applications/model/trace-replay-client.cc:229-239 | the loop answers true exactly when every parallel application has reached its recorded bytes, and false names one that has not |
| Replay.ProgressStaysMade | ns-3.27/src/applications/model/trace-replay-client.cc:240-247 | byte totals only grow, so once the gate opens for a packet it stays open |
| Replay.NoEntriesNoWait | ns-3.27/src/applications/model/trace-replay-client.cc:229-239 | a packet with no parallel entries is never held back |
| Replay.OwnConnectionNeverBlocks | ns-3-dev/src/applications/helper/trace-replay-helper.cc:296-298 | a packet the helper builds records nothing for its own connection, so its own application never holds it back |
| Replay.NextExpected | ns-3.27/src/applications/model/trace-replay-client.cc:275 | loading the next expected total takes the entry at the cursor and advances it, or gives 0 and stays at the end |
| Replay.NextExpectedConsumes | ns-3.27/src/applications/model/trace-replay-client.cc:315 | the loaded total plus what remains equals what remained before |
| Client.SetupState | ns-3.27/src/applications/model/trace-replay-client.cc:193-219 | empty request and expected-byte lists become [0]; all cursors start at the beginning; the counters and connection flag are kept |
| Client.SetupValid | ns-3.27/src/applications/model/trace-replay-client.cc:199-218 | when the packets cover the request counts, as an installed pair's do, Setup leaves the client on its first cycle with every cursor in range |
| Client.EnterReceive | ns-3.27/src/applications/model/trace-replay-client.cc:312-328 | the next expected total is loaded and the received count reset; the client waits for data if that total is positive and closes otherwise |
| Client.ScheduleTxStep | ns-3.27/src/applications/model/trace-replay-client.cc:290-329 | only the current count changes, by the number of packets sent; the byte total grows by exactly their sizes, plus any still pending; on waiting for data the count is 0 and a positive total is expected |
| Client.SendPacketStep | ns-3.27/src/applications/model/trace-replay-client.cc:222-287 | a delayed packet the gate holds back is retried with the state unchanged; a packet larger than the free space is retried likewise; a sent packet adds its size to the byte total |
| Client.StopStep | ns-3.27/src/applications/model/trace-replay-client.cc:101-113 | the client is disconnected and stopped, and nothing else changes |
| Client.ReceivePacketStep | ns-3.27/src/applications/model/trace-replay-client.cc:332-363 | the received sizes are added to both counters; short of the expected total the client keeps waiting; otherwise it stops exactly when no request cycle remains, and else moves to the next one |
| Client.SendOutcome | ns-3.27/src/applications/model/trace-replay-client.cc:266-286 | after a send the client schedules the next packet when the count is positive, and otherwise loads the next expected total |
| Client.ReceiveOutcome | ns-3.27/src/applications/model/trace-replay-client.cc:348-362 | the three outcomes of a receive: keep waiting, ScheduleTx on the next cycle, or stop |
| Client.CycleSendsAll | ns-3.27/src/applications/model/trace-replay-client.cc:290-329 | a cycle of undelayed packets with room in the buffer is sent whole in one ScheduleTx: every packet sent, its bytes counted, the next total loaded |
| Client.TraceReplayClient.constructor | ns-3.27/src/applications/model/trace-replay-client.cc:57-68 | disconnected, with all counters 0 |
| Client.TraceReplayClient.Setup | ns-3.27/src/applications/model/trace-replay-client.cc:193-219 | the fields become SetupState |
| Client.TraceReplayClient.EnterReceiveMode | ns-3.27/src/applications/model/trace-replay-client.cc:312-328 | the fields and continuation become EnterReceive |
| Client.TraceReplayClient.ScheduleTx | ns-3.27/src/applications/model/trace-replay-client.cc:290-329 | the fields and continuation become ScheduleTxStep |
| Client.TraceReplayClient.SendPacket | ns-3.27/src/applications/model/trace-replay-client.cc:222-287 | the fields and continuation become SendPacketStep |
| Client.TraceReplayClient.StopApplication | ns-3.27/src/applications/model/trace-replay-client.cc:101-113 | the fields and continuation become StopStep |
| Client.TraceReplayClient.ConnectionSucceeded | ns-3.27/src/applications/model/trace-replay-client.cc:115-121 | the client becomes connected and runs ScheduleTx |
| Client.TraceReplayClient.AddReceived | ns-3.27/src/applications/model/trace-replay-client.cc:338-347 | the loop adds every received size to both counters |
| Client.TraceReplayClient.ReceivePacket | ns-3.27/src/applications/model/trace-replay-client.cc:332-363 | the fields and continuation become ReceivePacketStep |
| Server.SetupState | ns-3-dev/src/applications/model/trace-replay-server.cc:202-230 | empty reply and expected-byte lists become [0]; the first expected total is loaded and its cursor advanced, because the server starts by receiving |
| Server.SetupValid | ns-3-dev/src/applications/model/trace-replay-server.cc:208-229 | when the packets cover the reply counts, as an installed pair's do, Setup leaves the server on its first cycle with every cursor in range |
| Server.ExpectNext | ns-3-dev/src/applications/model/trace-replay-server.cc:324-325 | the next expected total is loaded and the received count reset, and nothing else changes |
| Server.FirstEmptyCycleListens | ns-3-dev/src/applications/model/trace-replay-server.cc:320-328 | when the first cycle expects nothing and replies nothing, HandleAccept leaves the receive handler on the listening socket with the reply and packet cursors still on the first cycle, so later cycles are never reached |
| Server.HandleAcceptStep | ns-3-dev/src/applications/model/trace-replay-server.cc:112-125 | the server replies at once exactly when it expects 0 bytes, and otherwise waits for data |
| Server.ScheduleTxStep | ns-3-dev/src/applications/model/trace-replay-server.cc:299-329 | only the current count changes, by the number of packets sent; the reply cursor moves past the cycle only when its count reaches 0 and the server then waits for data; the byte total grows by exactly the sizes sent, plus any still pending; it never closes or stops; it leaves the receive handler on the listening socket exactly when it is entered with a count of 0 |
| Server.SendPacketStep | ns-3-dev/src/applications/model/trace-replay-server.cc:233-296 | the gate and buffer retries leave the state unchanged; a sent packet adds its size to the byte total |
| Server.StopStep | ns-3-dev/src/applications/model/trace-replay-server.cc:97-110 | the server is disconnected and stopped, and nothing else changes |
| Server.ReceivePacketStep | ns-3-dev/src/applications/model/trace-replay-server.cc:332-358 | the received sizes are added to the byte total; short of the expected total the server keeps waiting; it never closes or stops |
| Server.SendOutcome | ns-3-dev/src/applications/model/trace-replay-server.cc:277-295 | after a send the server schedules the next packet when the count is positive; otherwise it loads the next total, moves the reply cursor past the finished cycle and waits |
| Server.ReceiveOutcome | ns-3-dev/src/applications/model/trace-replay-server.cc:349-357 | the three outcomes of a receive: keep waiting, ScheduleTx on a pending reply, or do nothing |
| Server.ReplySendsAll | ns-3-dev/src/applications/model/trace-replay-server.cc:299-329 | a reply of undelayed packets with room in the buffer is sent whole in one ScheduleTx, and the server then waits for the next request |
| Server.TraceReplayServer.constructor | ns-3-dev/src/applications/model/trace-replay-server.cc:57-65 | disconnected, with all counters 0 |
| Server.TraceReplayServer.Setup | ns-3-dev/src/applications/model/trace-replay-server.cc:202-230 | the fields become SetupState |
| Server.TraceReplayServer.StartApplication | ns-3-dev/src/applications/model/trace-replay-server.cc:78-94 | the server becomes connected |
| Server.TraceReplayServer.StopApplication | ns-3-dev/src/applications/model/trace-replay-server.cc:97-110 | the fields and continuation become StopStep |
| Server.TraceReplayServer.LoadExpected | ns-3-dev/src/applications/model/trace-replay-server.cc:286-287 | the fields become ExpectNext |
| Server.TraceReplayServer.HandleAccept | ns-3-dev/src/applications/model/trace-replay-server.cc:112-125 | the fields and continuation become HandleAcceptStep |
| Server.TraceReplayServer.ScheduleTx | ns-3-dev/src/applications/model/trace-replay-server.cc:299-329 | the fields and continuation become ScheduleTxStep |
| Server.TraceReplayServer.SendPacket | ns-3-dev/src/applications/model/trace-replay-server.cc:233-296 | the fields and continuation become SendPacketStep |
| Server.TraceReplayServer.AddReceived | ns-3-dev/src/applications/model/trace-replay-server.cc:338-347 | the loop adds every received size to both counters |
| Server.TraceReplayServer.ReceivePacket | ns-3-dev/src/applications/model/trace-replay-server.cc:332-358 | the fields and continuation become ReceivePacketStep |
| Findings.LoadAsWritten | ns-3.27/src/applications/model/trace-replay-client.cc:275 | the unchecked load is defined exactly when the cursor is before the end, and then agrees with NextExpected |
| Findings.ClientLastCycleLoadsPastEnd | ns-3.27/src/applications/model/trace-replay-client.cc:275 | a client with two request cycles and one expected reply reaches the load with its cursor at the end |
| Findings.ServerLastReplyLoadsPastEnd | ns-3-dev/src/applications/model/trace-replay-server.cc:286 | a server with one request and one reply reaches the load after its reply with its cursor at the end |
| Findings.ServerEmptyConnectionLoadsPastEnd | ns-3-dev/src/applications/model/trace-replay-server.cc:324 | a server with nothing to receive or send reaches the load in ScheduleTx with its cursor at the end |
| Findings.ParseSideAsWritten | ns-3-dev/src/applications/helper/trace-replay-helper.cc:677-685 | reading a side with a 16-bit packet count yields at most 65535 packets |
| Findings.LargeSideReadsCorrupted | ns-3-dev/src/applications/helper/trace-replay-helper.cc:677-685 | a written side with more than 65535 packets reads back as corrupted |
| Findings.PacketLineAsWritten | ns-3-dev/src/applications/helper/trace-replay-helper.cc:485 | a packet line written by PrintTraceFile matches the packet pattern exactly when its delay is not in exponent form, and is then the exact line |
| Findings.PacketTextAsWritten | ns-3-dev/src/applications/helper/trace-replay-helper.cc:485-495 | the packet text as written equals the exact text exactly when the delay is not in exponent form, and differs at most in the packet line |
| Findings.ShortDelayReadsCorrupted | ns-3-dev/src/applications/helper/trace-replay-helper.cc:686-693 | a written packet whose delay is in exponent form reads back as corrupted |
| Findings.HttpRequestDelayReadsCorrupted | ns-3-dev/src/applications/helper/trace-replay-helper.cc:200-225 | an HTTP request 45 microseconds after the previous packet keeps the delay 4.5e-05, which reads back from the exact text and reads as corrupted from the text as written |
| Findings.SmallSideReadsAlike | ns-3-dev/src/applications/helper/trace-replay-helper.cc:677-685 | up to 65535 packets, the 16-bit read agrees with the corrected read |

## Left out

- Integer widths. Byte counters and sizes are unbounded naturals, so the 32-bit wrap-around of `m_totByteCount`, `totByteCount` and the cycle byte counts is not modelled. Port numbers are 16-bit and wrap explicitly in `ConnectionPort`.
- Times are reals in seconds. ns-3's nanosecond `Time` resolution is not modelled.
- The trace file is a sequence of typed lines. Number formatting and parsing, `std::regex` matching and the `ifstream`/`ofstream` plumbing are not modelled. The connection-line expression is taken to accept exactly connection headers.
- `exit(1)` on a corrupt file or a missing input becomes an `Err` result.
- IPv4/IPv6 address parsing and printing. Addresses are opaque ordered integers.
- `RunCommands` and `DeleteTmpFiles`: they run `tshark` and delete files, so they are I/O.
- `ProcessHttpList` and `ProcessTimeoutList` read files written by `tshark`. In the model their frame numbers are inputs of `ConvertPcapToTrace`, added to two sets.
- `SetPcap` and `SetTraceFile` are not modelled. Which file exists is an input of `Install`: an optional capture and an optional list of lines.
- The side-effect insertions of `operator[]` on `m_timeoutMap` and `m_httpReqMap` are not modelled, because they change no result. `frameNum` is not used by `CalculatePacketDelay`.
- Sockets, callbacks and `Simulator::Schedule`. Handlers return a `Next` value describing the continuation. Socket creation, `Connect`, `HandleSuccessClose`, `ConnectionFailed` and events arriving after the application has stopped are not modelled.
- The free space of the send buffer is the input `txAvailable`, taken to shrink by the bytes each send consumes within one handler.
- The parallel applications' byte totals are a snapshot passed to each handler.
- `DataRate::CalculateBytesTxTime`, the start-time jitter, `AssignStreams`, `SetStopTime` and `SetStartTimeOffset` only affect timing, which is not modelled.
- `DoInitialize`'s scan of the node's applications. The parallel applications are a given sequence.
- `GetIpServer`, `GetPortServer`, `GetPortClient` and `SetConnectionId` only store and return the connection id.
- `plot.py` and the example program are not part of this model.
- Server.ReceivePacketStep: the ensures give the byte total only as a lower bound and pin down only the waiting case. The exact outcome of every branch is stated by `Server.ReceiveOutcome`.
- Client.TraceReplayClient.SendPacket, Server.TraceReplayServer.SendPacket, Client.TraceReplayClient.ScheduleTx and Server.TraceReplayServer.ScheduleTx: the model loads a 0 expected total when the expected-byte list is exhausted, where the source reads past the end of the vector (see Findings).
- Client.ScheduleTxStep and Server.ScheduleTxStep require the packets left to cover the counts still to send. The source does not check this and would read past the packet list; an installed pair always meets it (`RoundTrip.InstalledPairBalanced`).
- RoundTrip.PacketAt, RoundTrip.TraceReadsBack, RoundTrip.InstallReadsBackTrace: these hold for numbers written exactly. PrintTraceFile writes start times and delays in the stream's default format, with six significant digits, so a delay of 0.123456789 s reads back as 0.123457 s. A value below 1e-4 is written in exponent form ("4.5e-05"), which neither the packet nor the connection pattern accepts, so Install reports the file it wrote as corrupted (see Findings). The connection pattern at trace-replay-helper.cc:639 starts with `^*`, which is not a valid ECMAScript expression, and `std::regex` may reject it on construction; the model takes it to accept exactly connection headers.
- Server.ScheduleTxStep: with a count of 0 the source installs ReceivePacket on `m_socket`, the listening socket (trace-replay-server.cc:327), not on the accepted connection as HandleAccept, SendPacket and ReceivePacket do. The model ends that step with the continuation `AwaitOnListener` and models nothing after it: data later sent on that connection reaches no handler, so the cycles after it are never replayed (`Server.FirstEmptyCycleListens`).
- TraceFile.ReadSide: the model reads the per-side packet count as an unbounded count, where the source stores it in 16 bits (see Findings).

## Findings

| source | as written | input that shows it | evidently intended | confidence | as-written member | corrected member |
|---|---|---|---|---|---|---|
| ns-3.27/src/applications/model/trace-replay-client.cc:275 | after a cycle's last packet the client loads `*(m_expByteIt++)` without checking that the cursor is before the end | a client set up with request counts [1, 1], expected bytes [5] and two one-byte packets: after the first reply the second cycle ends and the cursor is already at the end | an exhausted list means nothing more to receive, so the client closes | not executed | Findings.ClientLastCycleLoadsPastEnd | Replay.NextExpected |
| ns-3-dev/src/applications/model/trace-replay-server.cc:286 | after a reply's last packet the server loads `*(m_expByteIt++)` without checking that the cursor is before the end | a server set up with reply counts [1], expected bytes [5] and one packet: Setup consumes the only entry, so after the reply the cursor is at the end | an exhausted list means nothing more to receive | not executed | Findings.ServerLastReplyLoadsPastEnd | Server.ExpectNext |
| ns-3-dev/src/applications/model/trace-replay-server.cc:324 | ScheduleTx with a count of 0 loads `*(m_expByteIt++)` without checking that the cursor is before the end | a server set up with all lists empty: Setup makes them [0] and consumes the only expected entry, and HandleAccept then calls ScheduleTx, which loads again | an exhausted list means nothing more to receive | not executed | Findings.ServerEmptyConnectionLoadsPastEnd | Server.ExpectNext |
| ns-3-dev/src/applications/helper/trace-replay-helper.cc:677-685 | the number of packets of a side is read into a 16-bit variable, while PrintTraceFile writes it as a 32-bit count | a side with 65536 packets: the count saturates at 65535, and the reader then finds the last packet's line where it expects a count | the count read back equals the count written, for any number of packets | not executed | Findings.LargeSideReadsCorrupted | RoundTrip.SideAt |
| ns-3-dev/src/applications/helper/trace-replay-helper.cc:485 | delays are written with the stream's default format, which uses exponent form below 1e-4, while the packet pattern read back at trace-replay-helper.cc:691 accepts only digits and a point | an HTTP request 45 microseconds after its connection's previous packet: its delay 4.5e-05 is written as "4.5e-05" and the line fails the pattern | a file PrintTraceFile writes is read back by Install, whatever the delays | not executed | Findings.HttpRequestDelayReadsCorrupted | RoundTrip.PacketAt |
