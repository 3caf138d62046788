/**
 * TraceReplayHelper: turns a capture into a trace file and installs one
 * client/server pair per connection of a trace file.
 *
 * The helper object keeps the connection table m_connMap, the frame numbers
 * that tshark marked as HTTP requests or as TCP timeouts, and the first port
 * to hand out.  The capture itself (what tshark extracts from the pcap) and
 * the trace file are given to the methods as values.
 */
module Helper {
  import opened Wrappers
  import opened Utility
  import opened ConnTable
  import opened TraceFile
  import opened RoundTrip

  /** The port the constructor starts numbering connections from. */
  const DefaultPort: Port := 49153

  /** What tshark extracts from a pcap: HTTP request frames, timed-out frames and the packet list. */
  datatype Capture = Capture(httpRequests: seq<nat>, timeouts: seq<nat>, packets: seq<PacketRow>)

  /** The file Install reads: a converted pcap, or a trace file given by the user. */
  datatype TraceSource = ConvertedPcap | GivenTraceFile

  /**
   * The file choice of Install: a readable pcap wins over a trace file, and
   * with neither the helper gives up.
   */
  function ChooseTraceSource(pcapExists: bool, traceFileExists: bool): (r: Result<TraceSource, TraceError>)
    ensures r.Ok? <==> pcapExists || traceFileExists
    ensures r == Ok(ConvertedPcap) <==> pcapExists
    ensures r == Ok(GivenTraceFile) <==> !pcapExists && traceFileExists
    ensures r.Err? ==> r.error == NoTraceInput
  {
    if pcapExists then Ok(ConvertedPcap)
    else if traceFileExists then Ok(GivenTraceFile)
    else Err(NoTraceInput)
  }

  /** The table after the loop of ProcessPacketList has handled every row, in order. */
  ghost function ProcessedRows(m: map<ConnId, ConnInfo>, rows: seq<PacketRow>, httpReq: set<nat>, timeOut: set<nat>): map<ConnId, ConnInfo>
    decreases |rows|
  {
    if rows == [] then m
    else ProcessedRow(ProcessedRows(m, rows[..|rows| - 1], httpReq, timeOut), rows[|rows| - 1], httpReq, timeOut)
  }

  /** However many rows are processed, the table stays well formed. */
  lemma {:induction false} ProcessedRowsKeepTable(m: map<ConnId, ConnInfo>, rows: seq<PacketRow>, httpReq: set<nat>, timeOut: set<nat>)
    requires TableOk(m)
    ensures TableOk(ProcessedRows(m, rows, httpReq, timeOut))
    decreases |rows|
  {
    if rows != [] {
      ProcessedRowsKeepTable(m, rows[..|rows| - 1], httpReq, timeOut);
      ProcessedRowKeepsTable(ProcessedRows(m, rows[..|rows| - 1], httpReq, timeOut), rows[|rows| - 1], httpReq, timeOut);
    }
  }

  /** Every identifier seen in the rows is filed under itself or its reverse, and no key is ever removed. */
  lemma {:induction false} ProcessedRowsFileEveryRow(m: map<ConnId, ConnInfo>, rows: seq<PacketRow>, httpReq: set<nat>, timeOut: set<nat>)
    ensures var m' := ProcessedRows(m, rows, httpReq, timeOut);
            && m.Keys <= m'.Keys
            && forall i :: 0 <= i < |rows| ==> rows[i].id in m' || Reverse(rows[i].id) in m'
    decreases |rows|
  {
    if rows != [] {
      var prefix := rows[..|rows| - 1];
      var row := rows[|rows| - 1];
      ProcessedRowsFileEveryRow(m, prefix, httpReq, timeOut);
      var m1 := ProcessedRows(m, prefix, httpReq, timeOut);
      var m2 := ProcessedRow(m1, row, httpReq, timeOut);
      var m0 := if row.id !in m1 && Reverse(row.id) !in m1 then m1[row.id := NewConnInfo(row.packetTime)] else m1;
      if row.size > 0 {
        ProcessPacketEffect(m0, row.id, row.size, row.packetTime, row.frameNum in timeOut, row.frameNum in httpReq);
      }
      assert m2.Keys == m0.Keys;
      forall i | 0 <= i < |rows|
        ensures rows[i].id in m2 || Reverse(rows[i].id) in m2
      {
        if i < |rows| - 1 {
          assert rows[i] == prefix[i];
        }
      }
    }
  }

  /** Visiting one more key adds its entry exactly when it is parallel. */
  lemma {:induction false} ParallelEntriesAppend(ks: seq<ConnId>, k: ConnId, m: map<ConnId, ConnInfo>, id: ConnId)
    requires forall x :: x in ks ==> x in m
    requires k in m
    ensures ParallelEntries(ks + [k], m, id) == ParallelEntries(ks, m, id) + (if IsParallel(k, id, m) then [EntryOf(k, m)] else [])
  {
    if ks == [] {
      assert ([k])[1..] == [];
    } else {
      assert (ks + [k])[1..] == ks[1..] + [k];
      ParallelEntriesAppend(ks[1..], k, m, id);
    }
  }

  /** One turn of the loop over the keys: the entries of the first i + 1 keys. */
  lemma ParallelEntriesStep(ks: seq<ConnId>, i: nat, m: map<ConnId, ConnInfo>, id: ConnId,
                            before: seq<ParallelConnectionInfo>, after: seq<ParallelConnectionInfo>)
    requires i < |ks| && forall x :: x in ks ==> x in m
    requires before == ParallelEntries(ks[..i], m, id)
    requires after == before + (if IsParallel(ks[i], id, m) then [EntryOf(ks[i], m)] else [])
    ensures after == ParallelEntries(ks[..i + 1], m, id)
  {
    assert ks[..i + 1] == ks[..i] + [ks[i]];
    ParallelEntriesAppend(ks[..i], ks[i], m, id);
  }

  /** Writing one more connection appends its text. */
  lemma {:induction false} ConnectionsTextAppend(ks: seq<ConnId>, k: ConnId, m: map<ConnId, ConnInfo>)
    requires forall x :: x in ks ==> x in m
    requires k in m
    ensures ConnectionsText(ks + [k], m) == ConnectionsText(ks, m) + ConnectionText(k, m[k])
  {
    if ks == [] {
      assert ([k])[1..] == [];
    } else {
      assert (ks + [k])[1..] == ks[1..] + [k];
      ConnectionsTextAppend(ks[1..], k, m);
    }
  }

  /** The table part-way through the flush loop: the first i keys of ks are flushed, the others not yet. */
  ghost function FlushedUpTo(m: map<ConnId, ConnInfo>, ks: seq<ConnId>, i: nat): (f: map<ConnId, ConnInfo>)
    requires i <= |ks|
    ensures f.Keys == m.Keys
  {
    if i == 0 then m
    else
      var before := FlushedUpTo(m, ks, i - 1);
      if ks[i - 1] in m then before[ks[i - 1] := Flush(m[ks[i - 1]])] else before
  }

  /** Part-way through, a key holds its flushed record exactly when it is among the first i. */
  lemma {:induction false} FlushedUpToMeans(m: map<ConnId, ConnInfo>, ks: seq<ConnId>, i: nat)
    requires i <= |ks|
    ensures var f := FlushedUpTo(m, ks, i);
            && f.Keys == m.Keys
            && forall k :: k in m ==> f[k] == if k in ks[..i] then Flush(m[k]) else m[k]
  {
    if i > 0 {
      FlushedUpToMeans(m, ks, i - 1);
      assert ks[..i] == ks[..i - 1] + [ks[i - 1]];
    }
  }

  /** In map order, the i-th key is a key of the table and differs from every earlier one. */
  lemma MapOrderStep(ks: seq<ConnId>, s: set<ConnId>, i: nat)
    requires ks == SortedKeys(s) && i < |ks|
    ensures ks[i] in s && ks[i] !in ks[..i]
    ensures forall k :: k in ks ==> k in s
  {
    forall j | 0 <= j < i
      ensures ks[j] != ks[i]
    {
      LessIsStrictTotalOrder(ks[j], ks[i], ks[i]);
    }
  }

  /**
   * One turn of the flush loop: the next key in map order still holds its
   * record as it was, and flushing it in place extends the flushed part by one.
   */
  lemma FlushStep(m: map<ConnId, ConnInfo>, ks: seq<ConnId>, i: nat, current: map<ConnId, ConnInfo>)
    requires ks == SortedKeys(m.Keys) && i < |ks|
    requires current == FlushedUpTo(m, ks, i)
    ensures ks[i] in current && current[ks[i]] == m[ks[i]]
    ensures current[ks[i] := Flush(current[ks[i]])] == FlushedUpTo(m, ks, i + 1)
  {
    MapOrderStep(ks, m.Keys, i);
    FlushedUpToMeans(m, ks, i);
  }

  /** The file part-way through PrintTraceFile: the header, then the first i connections of ks. */
  ghost function WrittenUpTo(header: seq<TraceLine>, ks: seq<ConnId>, m: map<ConnId, ConnInfo>, i: nat): seq<TraceLine>
    requires i <= |ks| && forall k :: k in ks ==> k in m
  {
    assert forall k :: k in ks[..i] ==> k in ks;
    header + ConnectionsText(ks[..i], m)
  }

  /** The text of the first i + 1 connections extends that of the first i. */
  lemma ConnectionsTextPrefix(ks: seq<ConnId>, i: nat, m: map<ConnId, ConnInfo>)
    requires i < |ks| && forall k :: k in ks ==> k in m
    ensures forall k :: k in ks[..i] ==> k in m
    ensures ConnectionsText(ks[..i + 1], m) == ConnectionsText(ks[..i], m) + ConnectionText(ks[i], m[ks[i]])
  {
    assert ks[..i + 1] == ks[..i] + [ks[i]];
    assert forall k :: k in ks[..i] ==> k in ks;
    ConnectionsTextAppend(ks[..i], ks[i], m);
  }

  /** One turn of the writing part of the loop: the next connection's text extends the file. */
  lemma WriteStep(header: seq<TraceLine>, ks: seq<ConnId>, m: map<ConnId, ConnInfo>, i: nat, written: seq<TraceLine>, text: seq<TraceLine>)
    requires i < |ks| && forall k :: k in ks ==> k in m
    requires written == WrittenUpTo(header, ks, m, i)
    requires text == ConnectionText(ks[i], m[ks[i]])
    ensures written + text == WrittenUpTo(header, ks, m, i + 1)
  {
    ConnectionsTextPrefix(ks, i, m);
    var before := ConnectionsText(ks[..i], m);
    assert WrittenUpTo(header, ks, m, i + 1) == header + (before + text);
    assert written == header + before;
    assert forall j :: 0 <= j < |written + text| ==> (written + text)[j] == (header + (before + text))[j];
  }

  /** Once every key is done, the table is flushed throughout. */
  lemma FlushedUpToAll(m: map<ConnId, ConnInfo>, ks: seq<ConnId>)
    requires ks == SortedKeys(m.Keys)
    ensures FlushedUpTo(m, ks, |ks|) == FlushAll(m)
  {
    var f := FlushedUpTo(m, ks, |ks|);
    forall k | k in m
      ensures f[k] == FlushAll(m)[k]
    {
      FlushedUpToMeans(m, ks, |ks|);
      assert k in ks[..|ks|];
    }
    assert f.Keys == FlushAll(m).Keys;
  }

  /** After the last turn of the loop, the table is flushed throughout and the file is complete. */
  lemma PrintedAll(m: map<ConnId, ConnInfo>, ks: seq<ConnId>, header: seq<TraceLine>, current: map<ConnId, ConnInfo>, written: seq<TraceLine>)
    requires ks == SortedKeys(m.Keys) && header == Header() + [Count(|m.Keys|)]
    requires forall k :: k in ks ==> k in m
    requires current == FlushedUpTo(m, ks, |ks|)
    requires written == WrittenUpTo(header, ks, FlushAll(m), |ks|)
    ensures current == FlushAll(m)
    ensures written == TraceText(current)
  {
    FlushedUpToAll(m, ks);
    assert ks[..|ks|] == ks;
  }

  /**
   * ProcessPacket's last step: once the cycle is advanced (m1) and the packet
   * built with its delay and parallel list, storing it gives the processed table.
   */
  lemma ProcessedTableIs(m: map<ConnId, ConnInfo>, id: ConnId, size: nat, packetTime: real, timeOut: bool, httpReq: bool,
                         m1: map<ConnId, ConnInfo>, packet: Packet)
    requires id in m || Reverse(id) in m
    requires m1 == m[KeyOf(m, id) := AdvanceCycle(m[KeyOf(m, id)], id in m, size)]
    requires packet.size == size
    requires packet.delay == CalculatePacketDelay(timeOut, httpReq, m1[KeyOf(m, id)].currTime, packetTime)
    requires packet.parallelConnList == if packet.delay > 0.0 then ParallelEntries(SortedKeys(m1.Keys), m1, KeyOf(m, id)) else []
    ensures m1[KeyOf(m, id) := RecordPacket(m1[KeyOf(m, id)], id in m, packet, packetTime)] == ProcessedTable(m, id, size, packetTime, timeOut, httpReq)
  {
  }

  class TraceReplayHelper {
    var portNumber: Port
    var connMap: map<ConnId, ConnInfo>
    /** Frames m_httpReqMap marks true. */
    var httpReq: set<nat>
    /** Frames m_timeoutMap marks true. */
    var timeOut: set<nat>

    /** A new helper numbers ports from 49153 and knows no connection. */
    constructor ()
      ensures portNumber == DefaultPort && connMap == map[] && httpReq == {} && timeOut == {}
    {
      portNumber := DefaultPort;
      connMap := map[];
      httpReq := {};
      timeOut := {};
    }

    method SetPortNumber(port: Port)
      modifies this
      ensures portNumber == port
      ensures connMap == old(connMap) && httpReq == old(httpReq) && timeOut == old(timeOut)
    {
      portNumber := port;
    }

    /**
     * The loop of ProcessPacket over m_connMap: every connection with the
     * same addresses, another port pair and some bytes already seen is added
     * to the packet, in map order.
     */
    method AddParallelConnections(packet: TraceReplayPacket, key: ConnId)
      requires packet.parallelConnList == []
      modifies packet
      ensures packet.parallelConnList == ParallelEntries(SortedKeys(connMap.Keys), connMap, key)
      ensures packet.size == old(packet.size) && packet.delay == old(packet.delay)
    {
      var ks := KeysInOrder(connMap.Keys);
      var i := 0;
      while i < |ks|
        invariant i <= |ks|
        invariant packet.size == old(packet.size) && packet.delay == old(packet.delay)
        invariant packet.parallelConnList == ParallelEntries(ks[..i], connMap, key)
      {
        var k := ks[i];
        ghost var before := packet.parallelConnList;
        if k.ipClient == key.ipClient && k.ipServer == key.ipServer
           && (k.portClient != key.portClient || k.portServer != key.portServer)
           && connMap[k].totByteCount > 0 {
          packet.AddParallelConnection(k.portClient, k.portServer, connMap[k].totByteCount);
        }
        ParallelEntriesStep(ks, i, connMap, key, before, packet.parallelConnList);
        i := i + 1;
      }
      assert ks[..i] == ks;
    }

    /**
     * ProcessPacket: advances the cycle of the packet's connection, builds
     * the packet with its delay and, when delayed, the parallel connections
     * in map order, and files it on the side it came from.
     */
    method ProcessPacket(id: ConnId, size: nat, packetTime: real, frameNum: nat)
      requires id in connMap || Reverse(id) in connMap
      modifies this
      ensures connMap == ProcessedTable(old(connMap), id, size, packetTime, frameNum in timeOut, frameNum in httpReq)
      ensures portNumber == old(portNumber) && httpReq == old(httpReq) && timeOut == old(timeOut)
    {
      ghost var m0 := connMap;
      var fromClient := id in connMap;
      var key := if fromClient then id else Reverse(id);
      connMap := connMap[key := AdvanceCycle(connMap[key], fromClient, size)];
      var packet := new TraceReplayPacket();
      packet.SetSize(size);
      var delay := CalculatePacketDelay(frameNum in timeOut, frameNum in httpReq, connMap[key].currTime, packetTime);
      packet.SetDelay(delay);
      if delay > 0.0 {
        AddParallelConnections(packet, key);
      }
      var value := packet.Value();
      ProcessedTableIs(m0, id, size, packetTime, frameNum in timeOut, frameNum in httpReq, connMap, value);
      connMap := connMap[key := RecordPacket(connMap[key], fromClient, value, packetTime)];
    }

    /**
     * ProcessPacketList: each row starts a new connection when neither its
     * identifier nor the reverse is known; rows of positive size then go
     * through ProcessPacket.
     */
    method ProcessPacketList(rows: seq<PacketRow>)
      modifies this
      ensures connMap == ProcessedRows(old(connMap), rows, httpReq, timeOut)
      ensures portNumber == old(portNumber) && httpReq == old(httpReq) && timeOut == old(timeOut)
    {
      var i := 0;
      while i < |rows|
        invariant i <= |rows|
        invariant connMap == ProcessedRows(old(connMap), rows[..i], httpReq, timeOut)
        invariant portNumber == old(portNumber) && httpReq == old(httpReq) && timeOut == old(timeOut)
      {
        var row := rows[i];
        if row.id !in connMap && Reverse(row.id) !in connMap {
          connMap := connMap[row.id := NewConnInfo(row.packetTime)];
        }
        if row.size > 0 {
          ProcessPacket(row.id, row.size, row.packetTime, row.frameNum);
        }
        assert rows[..i + 1][..i] == rows[..i];
        i := i + 1;
      }
      assert rows[..i] == rows;
    }

    /**
     * The body of the PrintTraceFile loop for the i-th key in map order:
     * closes the connection's open cycle in place and writes the connection.
     */
    method FlushAndPrintConnection(ks: seq<ConnId>, i: nat, lines: seq<TraceLine>, ghost m0: map<ConnId, ConnInfo>, ghost header: seq<TraceLine>)
      returns (lines': seq<TraceLine>)
      requires ks == SortedKeys(m0.Keys) && i < |ks|
      requires connMap == FlushedUpTo(m0, ks, i)
      requires lines == WrittenUpTo(header, ks, FlushAll(m0), i)
      modifies this
      ensures connMap == FlushedUpTo(m0, ks, i + 1)
      ensures lines' == WrittenUpTo(header, ks, FlushAll(m0), i + 1)
      ensures portNumber == old(portNumber) && httpReq == old(httpReq) && timeOut == old(timeOut)
    {
      var k := ks[i];
      FlushStep(m0, ks, i, connMap);
      connMap := connMap[k := Flush(connMap[k])];
      var text := WriteConnection(k, connMap[k]);
      WriteStep(header, ks, FlushAll(m0), i, lines, text);
      lines' := lines + text;
    }

    /**
     * PrintTraceFile: the comment block and the number of connections, then,
     * in map order, each connection flushed in place and written out.
     */
    method PrintTraceFile() returns (lines: seq<TraceLine>)
      modifies this
      ensures connMap == FlushAll(old(connMap))
      ensures lines == TraceText(connMap)
      ensures portNumber == old(portNumber) && httpReq == old(httpReq) && timeOut == old(timeOut)
    {
      ghost var m0 := connMap;
      lines := Header() + [Count(|connMap.Keys|)];
      ghost var header := lines;
      var ks := KeysInOrder(connMap.Keys);
      var i := 0;
      while i < |ks|
        invariant i <= |ks|
        invariant connMap == FlushedUpTo(m0, ks, i)
        invariant lines == WrittenUpTo(header, ks, FlushAll(m0), i)
        invariant portNumber == old(portNumber) && httpReq == old(httpReq) && timeOut == old(timeOut)
      {
        lines := FlushAndPrintConnection(ks, i, lines, m0, header);
        i := i + 1;
      }
      PrintedAll(m0, ks, header, connMap, lines);
    }

    /**
     * ConvertPcapToTrace: records the HTTP request and timeout frames, builds
     * the connection table from the packet list and writes the trace file.
     */
    method ConvertPcapToTrace(capture: Capture) returns (lines: seq<TraceLine>)
      modifies this
      ensures httpReq == old(httpReq) + (set f | f in capture.httpRequests)
      ensures timeOut == old(timeOut) + (set f | f in capture.timeouts)
      ensures connMap == FlushAll(ProcessedRows(old(connMap), capture.packets, httpReq, timeOut))
      ensures lines == TraceText(connMap)
      ensures portNumber == old(portNumber)
    {
      httpReq := httpReq + (set f | f in capture.httpRequests);
      timeOut := timeOut + (set f | f in capture.timeouts);
      ProcessPacketList(capture.packets);
      lines := PrintTraceFile();
    }

    /**
     * The reading half of Install: the file is the converted pcap when there
     * is one, else the given trace file; connection j gets port
     * portNumber + j.  From a converted pcap over a well-formed table, the
     * pairs are exactly the table's connections in map order.
     */
    method Install(pcap: Option<Capture>, traceFile: Option<seq<TraceLine>>) returns (r: Result<seq<ConnectionSetup>, TraceError>)
      modifies this
      ensures pcap.Some? ==>
                && connMap == FlushAll(ProcessedRows(old(connMap), pcap.value.packets, httpReq, timeOut))
                && r == ParseTrace(TraceText(connMap), portNumber)
      ensures pcap.Some? && TableOk(old(connMap)) ==>
                var m := ProcessedRows(old(connMap), pcap.value.packets, httpReq, timeOut);
                var ks := SortedKeys(m.Keys);
                && r.Ok? && |r.value| == |m.Keys| == |ks|
                && forall j :: 0 <= j < |r.value| ==> r.value[j] == SetupFor(ks[j], connMap[ks[j]], ConnectionPort(portNumber, j))
      ensures pcap.None? ==> connMap == old(connMap)
      ensures pcap.None? && traceFile.Some? ==> r == ParseTrace(traceFile.value, portNumber)
      ensures pcap.None? && traceFile.None? ==> r == Err(NoTraceInput)
      ensures portNumber == old(portNumber)
    {
      var source := ChooseTraceSource(pcap.Some?, traceFile.Some?);
      if source.Err? {
        return Err(source.error);
      }
      var lines: seq<TraceLine>;
      if source.value == ConvertedPcap {
        lines := ConvertPcapToTrace(pcap.value);
        if TableOk(old(connMap)) {
          ProcessedRowsKeepTable(old(connMap), pcap.value.packets, httpReq, timeOut);
          InstallReadsBackTrace(ProcessedRows(old(connMap), pcap.value.packets, httpReq, timeOut), portNumber);
        }
      } else {
        lines := traceFile.value;
      }
      r := ReadTrace(lines, portNumber);
    }
  }
}
