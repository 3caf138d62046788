/**
 * The connection table that TraceReplayHelper builds from a capture:
 * connection identifiers and their order, the per-connection record, the
 * request/reply cycle bookkeeping of ProcessPacket, the packet-delay rule, the
 * list of parallel connections attached to a delayed packet, and the final
 * flush of the open cycle done by PrintTraceFile.
 */
module ConnTable {
  import opened Utility
  import opened Sums

  /** Addresses are opaque ordered values (IPv4 or IPv6 in the source). */
  type Addr = int

  /** m_connId: a connection is identified by its client and server endpoints. */
  datatype ConnId = ConnId(ipClient: Addr, portClient: Port, ipServer: Addr, portServer: Port)

  /** m_connId::operator<, lexicographic on (ipClient, portClient, ipServer, portServer). */
  predicate Less(a: ConnId, b: ConnId)
  {
    || a.ipClient < b.ipClient
    || (a.ipClient == b.ipClient && a.portClient < b.portClient)
    || (a.ipClient == b.ipClient && a.portClient == b.portClient && a.ipServer < b.ipServer)
    || (a.ipClient == b.ipClient && a.portClient == b.portClient && a.ipServer == b.ipServer && a.portServer < b.portServer)
  }

  /** The order is strict and total, so std::map can key on it. */
  lemma LessIsStrictTotalOrder(a: ConnId, b: ConnId, c: ConnId)
    ensures !Less(a, a)
    ensures Less(a, b) ==> !Less(b, a)
    ensures Less(a, b) && Less(b, c) ==> Less(a, c)
    ensures a == b || Less(a, b) || Less(b, a)
  {
  }

  /** The identifier seen on a packet that travels from server to client. */
  function Reverse(id: ConnId): ConnId
  {
    ConnId(id.ipServer, id.portServer, id.ipClient, id.portClient)
  }

  // ---------------------------------------------------------------------------
  // Iteration order of std::map<m_connId, m_connInfo>

  predicate StrictlySorted(ks: seq<ConnId>)
  {
    forall i, j :: 0 <= i < j < |ks| ==> Less(ks[i], ks[j])
  }

  predicate IsMinimum(m: ConnId, s: set<ConnId>)
  {
    m in s && forall y :: y in s ==> !Less(y, m)
  }

  lemma {:induction false} MinimumExists(s: set<ConnId>)
    requires s != {}
    ensures exists m :: IsMinimum(m, s)
    decreases |s|
  {
    var x :| x in s;
    if s - {x} == {} {
      assert s == {x};
      assert IsMinimum(x, s);
    } else {
      MinimumExists(s - {x});
      var m :| IsMinimum(m, s - {x});
      if Less(x, m) {
        forall y | y in s
          ensures !Less(y, x)
        {
          LessIsStrictTotalOrder(y, x, m);
        }
        assert IsMinimum(x, s);
      } else {
        assert IsMinimum(m, s);
      }
    }
  }

  /** The keys of a map in the order std::map visits them. */
  ghost function SortedKeys(s: set<ConnId>): (ks: seq<ConnId>)
    ensures StrictlySorted(ks)
    ensures forall k :: k in ks <==> k in s
    decreases |s|
  {
    if s == {} then []
    else
      MinimumExists(s);
      var m :| IsMinimum(m, s);
      var rest := SortedKeys(s - {m});
      assert forall j :: 0 <= j < |rest| ==> rest[j] in s - {m};
      assert forall j :: 0 <= j < |rest| ==> Less(m, rest[j]) by {
        forall j | 0 <= j < |rest|
          ensures Less(m, rest[j])
        {
          LessIsStrictTotalOrder(m, rest[j], m);
        }
      }
      [m] + rest
  }

  /** The head of a strictly sorted sequence is below every other element. */
  lemma HeadIsMinimum(a: seq<ConnId>)
    requires StrictlySorted(a) && a != []
    ensures forall y :: y in a ==> !Less(y, a[0])
  {
    forall y | y in a
      ensures !Less(y, a[0])
    {
      LessIsStrictTotalOrder(a[0], y, a[0]);
    }
  }

  /** Two sorted enumerations of the same keys are the same sequence. */
  lemma {:induction false} SortedUnique(a: seq<ConnId>, b: seq<ConnId>)
    requires StrictlySorted(a) && StrictlySorted(b)
    requires forall k :: k in a <==> k in b
    ensures a == b
  {
    if a != [] {
      assert a[0] in a;
    }
    if b != [] {
      assert b[0] in b;
    }
    if a != [] && b != [] {
      HeadIsMinimum(a);
      HeadIsMinimum(b);
      LessIsStrictTotalOrder(a[0], b[0], a[0]);
      assert a[0] == b[0];
      forall k
        ensures k in a[1..] <==> k in b[1..]
      {
        if k in a[1..] {
          var i :| 0 <= i < |a[1..]| && a[1..][i] == k;
          assert a[i + 1] == k && Less(a[0], k);
          LessIsStrictTotalOrder(a[0], k, k);
          assert k in b;
          var j :| 0 <= j < |b| && b[j] == k;
          assert j != 0;
          assert b[1..][j - 1] == k;
        }
        if k in b[1..] {
          var i :| 0 <= i < |b[1..]| && b[1..][i] == k;
          assert b[i + 1] == k && Less(b[0], k);
          LessIsStrictTotalOrder(b[0], k, k);
          assert k in a;
          var j :| 0 <= j < |a| && a[j] == k;
          assert j != 0;
          assert a[1..][j - 1] == k;
        }
      }
      SortedUnique(a[1..], b[1..]);
    }
  }

  /**
   * Enumerates the keys in map order, one minimum at a time: what iterating
   * a std::map from begin() to end() visits.
   */
  method KeysInOrder(s: set<ConnId>) returns (ks: seq<ConnId>)
    ensures ks == SortedKeys(s)
  {
    ks := [];
    var rest := s;
    while rest != {}
      invariant rest <= s
      invariant forall k :: k in s <==> k in rest || k in ks
      invariant StrictlySorted(ks)
      invariant forall i, y :: 0 <= i < |ks| && y in rest ==> Less(ks[i], y)
      decreases rest
    {
      var x :| x in rest;
      var min := x;
      var scan := rest - {x};
      while scan != {}
        invariant scan <= rest
        invariant min in rest && min !in scan
        invariant forall y :: y in rest && y !in scan ==> !Less(y, min)
        decreases scan
      {
        var y :| y in scan;
        if Less(y, min) {
          forall z | z in rest && z !in scan
            ensures !Less(z, y)
          {
            LessIsStrictTotalOrder(z, y, min);
          }
          min := y;
        }
        scan := scan - {y};
      }
      forall y | y in rest && y != min
        ensures Less(min, y)
      {
        LessIsStrictTotalOrder(min, y, min);
      }
      ks := ks + [min];
      rest := rest - {min};
    }
    SortedUnique(ks, SortedKeys(s));
  }

  // ---------------------------------------------------------------------------
  // The connection record

  /** m_connInfo. */
  datatype ConnInfo = ConnInfo(
    startTime: real,
    currTime: real,             // time of the last packet
    packetCount: nat,           // packets in the current cycle
    byteCount: nat,             // bytes in the current cycle
    totByteCount: nat,          // bytes seen on the connection
    packetC2S: bool,            // whether the last packet went client to server
    clientPackets: seq<Packet>,
    serverPackets: seq<Packet>,
    numReq: seq<nat>,           // packets per client cycle
    expByteClient: seq<nat>,    // bytes per client cycle
    numRep: seq<nat>,           // packets per server cycle
    expByteServer: seq<nat>)    // bytes per server cycle

  /** The record ProcessPacketList inserts for a new connection. */
  function NewConnInfo(packetTime: real): (c: ConnInfo)
    ensures c.totByteCount == 0 && c.packetCount == 0 && c.byteCount == 0 && c.packetC2S
  {
    ConnInfo(packetTime, packetTime, 0, 0, 0, true, [], [], [], [], [], [])
  }

  /**
   * The cycle bookkeeping of ProcessPacket: a packet in the same direction as
   * the previous one extends the open cycle; a packet in the other direction
   * closes it, appending its (packets, bytes) to the lists of the side that
   * sent it, and opens a new cycle holding this packet.
   */
  function AdvanceCycle(c: ConnInfo, fromClient: bool, size: nat): ConnInfo
  {
    if c.packetC2S == fromClient then
      c.(packetCount := c.packetCount + 1, byteCount := c.byteCount + size)
    else if fromClient then
      c.(numRep := c.numRep + [c.packetCount], expByteServer := c.expByteServer + [c.byteCount],
         packetC2S := true, packetCount := 1, byteCount := size)
    else
      c.(numReq := c.numReq + [c.packetCount], expByteClient := c.expByteClient + [c.byteCount],
         packetC2S := false, packetCount := 1, byteCount := size)
  }

  /** Stores the packet on its side and advances the connection's time and byte total. */
  function RecordPacket(c: ConnInfo, fromClient: bool, packet: Packet, packetTime: real): ConnInfo
  {
    var c' := if fromClient then c.(clientPackets := c.clientPackets + [packet])
              else c.(serverPackets := c.serverPackets + [packet]);
    c'.(currTime := packetTime, totByteCount := c.totByteCount + packet.size)
  }

  /** What every recorded packet satisfies: a parallel list only when delayed. */
  predicate PacketOk(p: Packet)
  {
    p.size > 0 && p.delay >= 0.0 && (p.delay <= 0.0 ==> p.parallelConnList == [])
  }

  predicate PacketsOk(ps: seq<Packet>)
  {
    forall i :: 0 <= i < |ps| ==> PacketOk(ps[i])
  }

  /**
   * The accounts of a connection balance: closed cycles plus the open one
   * add up to the packets and bytes recorded on each side, the two sides
   * alternate, and the byte total is everything seen.
   */
  ghost predicate Consistent(c: ConnInfo)
  {
    && PacketsOk(c.clientPackets) && PacketsOk(c.serverPackets)
    && |c.numReq| == |c.expByteClient| && |c.numRep| == |c.expByteServer|
    && |c.numReq| == |c.numRep| + (if c.packetC2S then 0 else 1)
    && Sum(c.numReq) + (if c.packetC2S then c.packetCount else 0) == |c.clientPackets|
    && Sum(c.numRep) + (if c.packetC2S then 0 else c.packetCount) == |c.serverPackets|
    && Sum(c.expByteClient) + (if c.packetC2S then c.byteCount else 0) == Bytes(c.clientPackets)
    && Sum(c.expByteServer) + (if c.packetC2S then 0 else c.byteCount) == Bytes(c.serverPackets)
    && c.totByteCount == Bytes(c.clientPackets) + Bytes(c.serverPackets)
  }

  lemma NewConnInfoConsistent(t: real)
    ensures Consistent(NewConnInfo(t))
  {
  }

  /**
   * One packet keeps the accounts balanced: whichever of the two branches
   * AdvanceCycle takes, recording the packet restores every equation.
   */
  lemma {:induction false} AdvanceCycleKeepsAccounts(c: ConnInfo, fromClient: bool, packet: Packet, packetTime: real)
    requires Consistent(c) && PacketOk(packet)
    ensures Consistent(RecordPacket(AdvanceCycle(c, fromClient, packet.size), fromClient, packet, packetTime))
  {
    var a := AdvanceCycle(c, fromClient, packet.size);
    var r := RecordPacket(a, fromClient, packet, packetTime);
    if fromClient {
      BytesAppend(c.clientPackets, packet);
      assert forall i :: 0 <= i < |c.clientPackets| ==> r.clientPackets[i] == c.clientPackets[i];
      if !c.packetC2S {
        SumAppend(c.numRep, c.packetCount);
        SumAppend(c.expByteServer, c.byteCount);
      }
    } else {
      BytesAppend(c.serverPackets, packet);
      assert forall i :: 0 <= i < |c.serverPackets| ==> r.serverPackets[i] == c.serverPackets[i];
      if c.packetC2S {
        SumAppend(c.numReq, c.packetCount);
        SumAppend(c.expByteClient, c.byteCount);
      }
    }
  }

  // ---------------------------------------------------------------------------
  // Packet delay

  /** Delays below one microsecond are treated as none. */
  const MinDelay: real := 0.000001

  function Max(a: real, b: real): real
  {
    if a >= b then a else b
  }

  /**
   * CalculatePacketDelay: a timed-out packet gets no delay; otherwise the gap
   * since the connection's previous packet counts when the packet is an HTTP
   * request or when the gap exceeds one second, and a result below one
   * microsecond is rounded to zero.  The second ensures restates the rule
   * without max, as a single condition on the gap.
   */
  function CalculatePacketDelay(timeOut: bool, httpReq: bool, currTime: real, packetTime: real): (delay: real)
    ensures delay == 0.0 || delay >= MinDelay
    ensures delay == if !timeOut && (httpReq || packetTime - currTime > 1.0) && packetTime - currTime >= MinDelay
                     then packetTime - currTime else 0.0
  {
    var delay :=
      if timeOut then 0.0
      else
        var httpDelay := if httpReq then packetTime - currTime else 0.0;
        var sshDelay := if packetTime - currTime > 1.0 then packetTime - currTime else 0.0;
        Max(httpDelay, sshDelay);
    if delay < MinDelay then 0.0 else delay
  }

  // ---------------------------------------------------------------------------
  // Parallel connections of a delayed packet

  /** k is parallel to id: same addresses, another port pair, some bytes already seen. */
  predicate IsParallel(k: ConnId, id: ConnId, m: map<ConnId, ConnInfo>)
    requires k in m
  {
    && k.ipClient == id.ipClient && k.ipServer == id.ipServer
    && (k.portClient != id.portClient || k.portServer != id.portServer)
    && m[k].totByteCount > 0
  }

  function EntryOf(k: ConnId, m: map<ConnId, ConnInfo>): ParallelConnectionInfo
    requires k in m
  {
    ParallelConnectionInfo(k.portClient, k.portServer, m[k].totByteCount)
  }

  /** The entries ProcessPacket attaches, visiting the keys ks in order. */
  function ParallelEntries(ks: seq<ConnId>, m: map<ConnId, ConnInfo>, id: ConnId): seq<ParallelConnectionInfo>
    requires forall k :: k in ks ==> k in m
  {
    if ks == [] then []
    else (if IsParallel(ks[0], id, m) then [EntryOf(ks[0], m)] else []) + ParallelEntries(ks[1..], m, id)
  }

  /** An entry is attached exactly for each parallel connection among the keys. */
  lemma {:induction false} ParallelEntriesExactly(ks: seq<ConnId>, m: map<ConnId, ConnInfo>, id: ConnId)
    requires forall k :: k in ks ==> k in m
    ensures forall e :: e in ParallelEntries(ks, m, id) ==> exists k :: k in ks && IsParallel(k, id, m) && e == EntryOf(k, m)
    ensures forall k :: k in ks && IsParallel(k, id, m) ==> EntryOf(k, m) in ParallelEntries(ks, m, id)
  {
    if ks != [] {
      ParallelEntriesExactly(ks[1..], m, id);
      forall e | e in ParallelEntries(ks, m, id)
        ensures exists k :: k in ks && IsParallel(k, id, m) && e == EntryOf(k, m)
      {
        if e !in ParallelEntries(ks[1..], m, id) {
          assert IsParallel(ks[0], id, m) && e == EntryOf(ks[0], m);
        } else {
          var k :| k in ks[1..] && IsParallel(k, id, m) && e == EntryOf(k, m);
          assert k in ks;
        }
      }
      forall k | k in ks && IsParallel(k, id, m)
        ensures EntryOf(k, m) in ParallelEntries(ks, m, id)
      {
        if k != ks[0] {
          assert k in ks[1..];
        }
      }
    }
  }

  /**
   * Looking up a parallel connection's ports in the attached list returns
   * the byte total recorded for that connection; the packet's own connection
   * is never in the list.
   */
  lemma {:induction false} ParallelEntriesLookup(ks: seq<ConnId>, m: map<ConnId, ConnInfo>, id: ConnId, k: ConnId)
    requires forall k' :: k' in ks ==> k' in m
    requires k in m && k.ipClient == id.ipClient && k.ipServer == id.ipServer
    ensures ExpectedBytes(ParallelEntries(ks, m, id), k.portClient, k.portServer) ==
              if k in ks && IsParallel(k, id, m) then m[k].totByteCount else 0
  {
    var r := ParallelEntries(ks, m, id);
    if ks == [] {
    } else {
      var head := if IsParallel(ks[0], id, m) then [EntryOf(ks[0], m)] else [];
      var tail := ParallelEntries(ks[1..], m, id);
      assert r == head + tail;
      ParallelEntriesLookup(ks[1..], m, id, k);
      if head == [] {
        assert r == tail;
        if k == ks[0] {
          assert !IsParallel(k, id, m);
          ParallelEntriesExactly(ks[1..], m, id);
          forall j | 0 <= j < |tail|
            ensures !tail[j].Links(k.portClient, k.portServer)
          {
            assert tail[j] in tail;
          }
          ExpectedBytesNoMatch(tail, k.portClient, k.portServer);
        } else {
          assert k in ks <==> k in ks[1..];
        }
      } else {
        assert r[0] == EntryOf(ks[0], m) && r[1..] == tail;
        if k == ks[0] {
          ExpectedBytesFirstMatch(r, k.portClient, k.portServer, 0);
        } else {
          assert !r[0].Links(k.portClient, k.portServer);
          assert k in ks <==> k in ks[1..];
        }
      }
    }
  }

  // ---------------------------------------------------------------------------
  // ProcessPacket and the insertion rule of ProcessPacketList

  /**
   * Every connection's accounts balance, and a connection is stored under
   * one orientation only (ProcessPacketList never inserts an identifier whose
   * reverse is present).
   */
  ghost predicate TableOk(m: map<ConnId, ConnInfo>)
  {
    forall k :: k in m ==> Consistent(m[k]) && (Reverse(k) in m ==> Reverse(k) == k)
  }

  /** The key under which a packet with identifier id is filed. */
  function KeyOf(m: map<ConnId, ConnInfo>, id: ConnId): ConnId
  {
    if id in m then id else Reverse(id)
  }

  /** The packet ProcessPacket builds: its size, its delay and, when delayed, its parallel connections. */
  ghost function BuildPacket(m: map<ConnId, ConnInfo>, key: ConnId, size: nat, packetTime: real, timeOut: bool, httpReq: bool): Packet
    requires key in m
  {
    var delay := CalculatePacketDelay(timeOut, httpReq, m[key].currTime, packetTime);
    Packet(size, delay, if delay > 0.0 then ParallelEntries(SortedKeys(m.Keys), m, key) else [])
  }

  /**
   * ProcessPacket: a packet whose identifier is a key is a client packet,
   * otherwise it belongs to the reversed key as a server packet.  The cycle
   * is advanced, the delay is taken from the gap since the connection's
   * previous packet, and the packet is stored on its side.
   */
  ghost function ProcessedTable(m: map<ConnId, ConnInfo>, id: ConnId, size: nat, packetTime: real, timeOut: bool, httpReq: bool): map<ConnId, ConnInfo>
    requires id in m || Reverse(id) in m
  {
    var fromClient := id in m;
    var key := KeyOf(m, id);
    var m1 := m[key := AdvanceCycle(m[key], fromClient, size)];
    var packet := BuildPacket(m1, key, size, packetTime, timeOut, httpReq);
    m1[key := RecordPacket(m1[key], fromClient, packet, packetTime)]
  }

  /**
   * After ProcessPacket the connection's byte total has grown by exactly the
   * packet size, its time is the packet's, the packet went to exactly one of
   * the two lists, and no other connection changed.
   */
  lemma ProcessPacketEffect(m: map<ConnId, ConnInfo>, id: ConnId, size: nat, packetTime: real, timeOut: bool, httpReq: bool)
    requires id in m || Reverse(id) in m
    ensures var m' := ProcessedTable(m, id, size, packetTime, timeOut, httpReq);
            var key := KeyOf(m, id);
            && m'.Keys == m.Keys
            && m'[key].totByteCount == m[key].totByteCount + size
            && m'[key].currTime == packetTime
            && (if id in m
                then m'[key].serverPackets == m[key].serverPackets && |m'[key].clientPackets| == |m[key].clientPackets| + 1
                else m'[key].clientPackets == m[key].clientPackets && |m'[key].serverPackets| == |m[key].serverPackets| + 1)
            && (forall k :: k in m && k != key ==> m'[k] == m[k])
  {
  }

  /** The recorded packet is well formed: positive size, and parallel entries only when delayed. */
  lemma {:induction false} BuildPacketOk(m: map<ConnId, ConnInfo>, key: ConnId, size: nat, packetTime: real, timeOut: bool, httpReq: bool)
    requires key in m && size > 0
    ensures PacketOk(BuildPacket(m, key, size, packetTime, timeOut, httpReq))
  {
  }

  /** ProcessPacket keeps the table well formed. */
  lemma {:induction false} ProcessPacketKeepsTable(m: map<ConnId, ConnInfo>, id: ConnId, size: nat, packetTime: real, timeOut: bool, httpReq: bool)
    requires TableOk(m) && (id in m || Reverse(id) in m) && size > 0
    ensures TableOk(ProcessedTable(m, id, size, packetTime, timeOut, httpReq))
  {
    var fromClient := id in m;
    var key := KeyOf(m, id);
    var m1 := m[key := AdvanceCycle(m[key], fromClient, size)];
    var packet := BuildPacket(m1, key, size, packetTime, timeOut, httpReq);
    BuildPacketOk(m1, key, size, packetTime, timeOut, httpReq);
    AdvanceCycleKeepsAccounts(m[key], fromClient, packet, packetTime);
    var m' := m1[key := RecordPacket(m1[key], fromClient, packet, packetTime)];
    assert m' == ProcessedTable(m, id, size, packetTime, timeOut, httpReq);
    assert m'.Keys == m.Keys;
    forall k | k in m'
      ensures Consistent(m'[k]) && (Reverse(k) in m' ==> Reverse(k) == k)
    {
      if k != key {
        assert m'[k] == m[k];
      }
    }
  }

  /** One line of the packet list that tshark produces. */
  datatype PacketRow = PacketRow(id: ConnId, size: nat, packetTime: real, frameNum: nat)

  /**
   * The body of the ProcessPacketList loop: an identifier whose connection
   * is unknown in either orientation starts a new connection; zero-size
   * packets go no further.
   */
  ghost function ProcessedRow(m: map<ConnId, ConnInfo>, row: PacketRow, httpReq: set<nat>, timeOut: set<nat>): map<ConnId, ConnInfo>
  {
    var m1 := if row.id !in m && Reverse(row.id) !in m then m[row.id := NewConnInfo(row.packetTime)] else m;
    if row.size == 0 then m1
    else ProcessedTable(m1, row.id, row.size, row.packetTime, row.frameNum in timeOut, row.frameNum in httpReq)
  }

  /** A new connection is inserted only when neither orientation is present, with zero counters. */
  lemma InsertionRule(m: map<ConnId, ConnInfo>, row: PacketRow, httpReq: set<nat>, timeOut: set<nat>)
    requires row.size == 0
    ensures var m' := ProcessedRow(m, row, httpReq, timeOut);
            && (row.id in m || Reverse(row.id) in m ==> m' == m)
            && (row.id !in m && Reverse(row.id) !in m ==>
                  m' == m[row.id := NewConnInfo(row.packetTime)] && m'[row.id].totByteCount == 0 && m'[row.id].packetC2S)
  {
  }

  /** Each line of the packet list keeps the table well formed. */
  lemma {:induction false} ProcessedRowKeepsTable(m: map<ConnId, ConnInfo>, row: PacketRow, httpReq: set<nat>, timeOut: set<nat>)
    requires TableOk(m)
    ensures TableOk(ProcessedRow(m, row, httpReq, timeOut))
  {
    var m1 := if row.id !in m && Reverse(row.id) !in m then m[row.id := NewConnInfo(row.packetTime)] else m;
    if row.id !in m && Reverse(row.id) !in m {
      forall k | k in m1
        ensures Consistent(m1[k]) && (Reverse(k) in m1 ==> Reverse(k) == k)
      {
        assert Reverse(Reverse(k)) == k;
        if k == row.id {
          NewConnInfoConsistent(row.packetTime);
        }
      }
    }
    if row.size > 0 {
      ProcessPacketKeepsTable(m1, row.id, row.size, row.packetTime, row.frameNum in timeOut, row.frameNum in httpReq);
    }
  }

  // ---------------------------------------------------------------------------
  // The final flush of PrintTraceFile

  /**
   * Closes the open cycle of a connection that saw any bytes: on the client
   * lists when the last packet went client to server, else on the server lists.
   */
  function Flush(c: ConnInfo): ConnInfo
  {
    if c.packetC2S && c.totByteCount > 0 then
      c.(numReq := c.numReq + [c.packetCount], expByteClient := c.expByteClient + [c.byteCount])
    else if c.totByteCount > 0 then
      c.(numRep := c.numRep + [c.packetCount], expByteServer := c.expByteServer + [c.byteCount])
    else c
  }

  /**
   * After the flush the per-cycle lists account for every recorded packet
   * and byte: the client's cycles send exactly its packets and the server's
   * cycles exactly its own, and the client has as many cycles as the server
   * or one more.
   */
  lemma {:induction false} FlushBalances(c: ConnInfo)
    requires Consistent(c)
    ensures var f := Flush(c);
            && Sum(f.numReq) == |c.clientPackets| && Sum(f.expByteClient) == Bytes(c.clientPackets)
            && Sum(f.numRep) == |c.serverPackets| && Sum(f.expByteServer) == Bytes(c.serverPackets)
            && |f.numReq| == |f.expByteClient| && |f.numRep| == |f.expByteServer|
            && |f.numRep| <= |f.numReq| <= |f.numRep| + 1
  {
    SumAppend(c.numReq, c.packetCount);
    SumAppend(c.numRep, c.packetCount);
    SumAppend(c.expByteClient, c.byteCount);
    SumAppend(c.expByteServer, c.byteCount);
    if c.totByteCount == 0 {
      BytesZero(c.clientPackets);
      BytesZero(c.serverPackets);
    }
  }

  /** The flush applied to every connection of the table. */
  function FlushAll(m: map<ConnId, ConnInfo>): (f: map<ConnId, ConnInfo>)
    ensures f.Keys == m.Keys
    ensures forall k :: k in m ==> f[k] == Flush(m[k])
  {
    map k | k in m :: Flush(m[k])
  }
}
