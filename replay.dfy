/**
 * What the replaying client and server have in common: the parallel-progress
 * gate, the continuation a handler leaves behind, and the load of the next
 * expected byte total.
 *
 * The socket and the event scheduler are not modelled.  A handler returns
 * the state it leaves and a Next value naming what it left pending (a
 * scheduled SendPacket, an installed receive callback, a closed socket).
 * The free space of the socket's send buffer is an input; the synchronous
 * chain ScheduleTx -> SendPacket -> ScheduleTx runs within one event, so
 * each send in the chain uses up its size of that space.
 */
module Replay {
  import opened Utility
  import opened Sums
  import opened ConnTable

  /** A parallel application as the gate sees it: its port pair and GetTotalByteCount(). */
  datatype ParallelApp = ParallelApp(portClient: Port, portServer: Port, totalByteCount: nat)

  /** SendPacket's retry interval when parallel connections lag behind, in seconds. */
  const ProgressRetryDelay: real := 0.00001

  /** What a handler leaves pending when it returns. */
  datatype Next =
    | Idle                          // nothing until the next socket event
    | SendScheduled(packet: Packet) // SendPacket scheduled after the packet's delay and transmission time
    | RetryProgress(packet: Packet) // SendPacket rescheduled after ProgressRetryDelay
    | RetryBuffer(packet: Packet)   // SendPacket rescheduled after the packet's transmission time
    | AwaitData                     // ReceivePacket installed as the receive callback
    | AwaitOnListener               // ReceivePacket installed on the server's listening socket, not on the connection
    | Closed                        // the socket is closed and the application disconnected
    | Stopped                       // StopApplication ran

  /** The bytes of a packet that a continuation still holds, not yet sent. */
  function Pending(next: Next): nat
  {
    match next
    case SendScheduled(p) => p.size
    case RetryProgress(p) => p.size
    case RetryBuffer(p) => p.size
    case _ => 0
  }

  /** A handler's outcome: the state it leaves and what it left pending. */
  datatype Step<S> = Step(state: S, next: Next)

  /**
   * The gate of SendPacket: every parallel application has seen at least the
   * bytes the packet recorded for its port pair (0 when it recorded none).
   */
  predicate ProgressMade(packet: Packet, apps: seq<ParallelApp>)
  {
    forall i :: 0 <= i < |apps| ==> apps[i].totalByteCount >= ExpectedBytes(packet.parallelConnList, apps[i].portClient, apps[i].portServer)
  }

  /** The loop of SendPacket over m_parallelConnList, stopping at the first application that lags. */
  method CheckParallelProgress(packet: Packet, apps: seq<ParallelApp>) returns (okToSend: bool)
    ensures okToSend <==> ProgressMade(packet, apps)
    ensures !okToSend ==> exists i :: 0 <= i < |apps| && apps[i].totalByteCount < ExpectedBytes(packet.parallelConnList, apps[i].portClient, apps[i].portServer)
  {
    okToSend := true;
    var i := 0;
    while i < |apps|
      invariant i <= |apps|
      invariant okToSend
      invariant forall j :: 0 <= j < i ==> apps[j].totalByteCount >= ExpectedBytes(packet.parallelConnList, apps[j].portClient, apps[j].portServer)
    {
      var expected := ExpectedBytes(packet.parallelConnList, apps[i].portClient, apps[i].portServer);
      var current := apps[i].totalByteCount;
      if current < expected {
        okToSend := false;
        break;
      }
      i := i + 1;
    }
  }

  /** Byte totals only grow, so once the gate is open for a packet it stays open. */
  lemma ProgressStaysMade(packet: Packet, apps: seq<ParallelApp>, later: seq<ParallelApp>)
    requires ProgressMade(packet, apps)
    requires |later| == |apps|
    requires forall i :: 0 <= i < |apps| ==> later[i].portClient == apps[i].portClient && later[i].portServer == apps[i].portServer
    requires forall i :: 0 <= i < |apps| ==> later[i].totalByteCount >= apps[i].totalByteCount
    ensures ProgressMade(packet, later)
  {
    forall i | 0 <= i < |later|
      ensures later[i].totalByteCount >= ExpectedBytes(packet.parallelConnList, later[i].portClient, later[i].portServer)
    {
      assert apps[i].totalByteCount >= ExpectedBytes(packet.parallelConnList, apps[i].portClient, apps[i].portServer);
    }
  }

  /** A packet without parallel entries, or not delayed, is never held back by the gate. */
  lemma NoEntriesNoWait(packet: Packet, apps: seq<ParallelApp>)
    requires packet.parallelConnList == []
    ensures ProgressMade(packet, apps)
  {
    forall i | 0 <= i < |apps|
      ensures ExpectedBytes(packet.parallelConnList, apps[i].portClient, apps[i].portServer) == 0
    {
      ExpectedBytesNoMatch(packet.parallelConnList, apps[i].portClient, apps[i].portServer);
    }
  }

  /**
   * The application's own entry in m_parallelConnList never holds back a
   * packet the helper built for its connection: the packet records no bytes
   * for the connection's own port pair.
   */
  lemma {:induction false} OwnConnectionNeverBlocks(ks: seq<ConnId>, m: map<ConnId, ConnInfo>, key: ConnId)
    requires forall k :: k in ks ==> k in m
    ensures ExpectedBytes(ParallelEntries(ks, m, key), key.portClient, key.portServer) == 0
  {
    var list := ParallelEntries(ks, m, key);
    ParallelEntriesExactly(ks, m, key);
    forall j | 0 <= j < |list|
      ensures !list[j].Links(key.portClient, key.portServer)
    {
      assert list[j] in list;
      var k :| k in ks && IsParallel(k, key, m) && list[j] == EntryOf(k, m);
    }
    ExpectedBytesNoMatch(list, key.portClient, key.portServer);
  }

  /**
   * The next expected byte total and the advanced cursor.  The source
   * dereferences the cursor with no end check; here an exhausted list yields
   * 0, nothing more to receive, and the cursor stays at the end.
   */
  function NextExpected(expByte: seq<nat>, it: nat): (r: (nat, nat))
    requires it <= |expByte|
    ensures r.1 <= |expByte|
    ensures it < |expByte| ==> r == (expByte[it], it + 1)
    ensures it == |expByte| ==> r == (0, it)
  {
    if it < |expByte| then (expByte[it], it + 1) else (0, it)
  }

  /** Each load consumes one entry until the list is exhausted, and the totals loaded add up to the list's sum. */
  lemma {:induction false} NextExpectedConsumes(expByte: seq<nat>, it: nat)
    requires it <= |expByte|
    ensures var r := NextExpected(expByte, it);
            Sum(expByte[it..]) == r.0 + Sum(expByte[r.1..])
  {
    if it < |expByte| {
      SumSuffix(expByte, it);
    }
  }

  /** Taking one from the count at the cursor takes one from the counts still to go. */
  lemma SumDecrementAt(xs: seq<nat>, i: nat)
    requires i < |xs| && xs[i] > 0
    ensures Sum(xs[i := xs[i] - 1][i..]) + 1 == Sum(xs[i..])
  {
    assert xs[i := xs[i] - 1][i..] == xs[i..][0 := xs[i] - 1];
    SumDecrement(xs[i..], 0);
  }

  /** The bytes of a run of packets, the first one split off. */
  lemma BytesSplitFirst(ps: seq<Packet>, p: nat, q: nat)
    requires p < q <= |ps|
    ensures Bytes(ps[p..q]) == ps[p].size + Bytes(ps[p + 1..q])
  {
    assert ps[p..q][1..] == ps[p + 1..q];
  }
}
