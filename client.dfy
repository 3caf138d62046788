/**
 * TraceReplayClient: replays the client side of one captured connection.
 *
 * In each cycle the client sends the current count of packets from its
 * packet list (a delayed packet waits for its delay and for the parallel
 * connections to catch up), then waits for the bytes the server sent in the
 * capture; when those have arrived it moves to the next cycle, and it closes
 * when there is nothing more to receive or no cycle left.
 */
module Client {
  import opened Utility
  import opened Sums
  import opened Replay

  /** The fields of TraceReplayClient that the handlers read and update; cursors are indices. */
  datatype ClientState = ClientState(
    connected: bool,
    numReq: seq<nat>, reqIt: nat,
    expByte: seq<nat>, expIt: nat,
    packets: seq<Packet>, packetIt: nat,
    totRecByte: nat, totExpByte: nat, totByteCount: nat)
  {
    /**
     * The cursors stay within their vectors (the request cursor may reach the
     * end only when the client stops), and the packets left cover the counts
     * still to be sent.
     */
    ghost predicate Valid()
    {
      && reqIt <= |numReq| && expIt <= |expByte|
      && packetIt + Sum(numReq[reqIt..]) <= |packets|
    }

    /** Sending is possible: the request cursor is on a cycle. */
    ghost predicate InCycle()
    {
      Valid() && reqIt < |numReq|
    }
  }

  /** Setup: an empty count or expectation list becomes [0]; every cursor is at the start. */
  function SetupState(s: ClientState, numReq: seq<nat>, expByte: seq<nat>, packetList: seq<Packet>): (r: ClientState)
    ensures r.numReq != [] && r.expByte != []
    ensures r.reqIt == 0 && r.expIt == 0 && r.packetIt == 0
    ensures r.numReq == (if numReq == [] then [0] else numReq) && r.expByte == (if expByte == [] then [0] else expByte)
    ensures r.packets == packetList
    ensures r.connected == s.connected && r.totRecByte == s.totRecByte && r.totExpByte == s.totExpByte && r.totByteCount == s.totByteCount
  {
    s.(numReq := if numReq == [] then [0] else numReq, reqIt := 0,
       expByte := if expByte == [] then [0] else expByte, expIt := 0,
       packets := packetList, packetIt := 0)
  }

  /** When the packets cover the counts, as Install provides them, Setup leaves the client valid and on its first cycle. */
  lemma SetupValid(s: ClientState, numReq: seq<nat>, expByte: seq<nat>, packetList: seq<Packet>)
    requires Sum(numReq) <= |packetList|
    ensures SetupState(s, numReq, expByte, packetList).InCycle()
  {
    var r := SetupState(s, numReq, expByte, packetList);
    assert r.numReq[0..] == r.numReq;
    if numReq == [] {
      assert Sum([0]) == 0 + Sum([0][1..]);
    }
  }

  /**
   * The cycle's packets are sent: load the next expected byte total and
   * reset the received bytes; with nothing to receive the socket is closed,
   * otherwise the client waits for data.
   */
  function EnterReceive(s: ClientState): (r: Step<ClientState>)
    requires s.Valid()
    ensures r.state.Valid()
    ensures r.state == s.(totExpByte := r.state.totExpByte, expIt := r.state.expIt, totRecByte := 0, connected := r.state.connected)
    ensures (r.state.totExpByte, r.state.expIt) == NextExpected(s.expByte, s.expIt)
    ensures r.next == AwaitData <==> r.state.totExpByte > 0
    ensures r.next == Closed <==> r.state.totExpByte == 0
    ensures r.next == Closed ==> !r.state.connected
    ensures r.next == AwaitData ==> r.state.connected == s.connected
  {
    var e := NextExpected(s.expByte, s.expIt);
    var s' := s.(totExpByte := e.0, expIt := e.1, totRecByte := 0);
    if e.0 == 0 then Step(s'.(connected := false), Closed) else Step(s', AwaitData)
  }

  /**
   * ScheduleTx: while connected with packets left in the cycle, take one
   * from the count and the next packet from the list; a delayed packet is
   * scheduled, any other is sent at once.  With the count at 0 the client
   * enters receive mode.  Sending never leaves the cycle, takes exactly as
   * many packets as it takes from the count, and every packet taken is
   * either sent (its bytes counted) or still pending.
   */
  function ScheduleTxStep(s: ClientState, apps: seq<ParallelApp>, txAvailable: nat): (r: Step<ClientState>)
    requires s.InCycle()
    ensures r.state.Valid() && r.state.reqIt == s.reqIt
    ensures |r.state.numReq| == |s.numReq| && r.state.numReq == s.numReq[s.reqIt := r.state.numReq[s.reqIt]]
    ensures s.packetIt <= r.state.packetIt && r.state.numReq[s.reqIt] + (r.state.packetIt - s.packetIt) == s.numReq[s.reqIt]
    ensures r.state.packets == s.packets && r.state.expByte == s.expByte
    ensures r.state.totByteCount + Pending(r.next) == s.totByteCount + Bytes(s.packets[s.packetIt..r.state.packetIt])
    ensures r.next == AwaitData ==> r.state.numReq[s.reqIt] == 0 && r.state.totRecByte == 0 && r.state.totExpByte > 0
    ensures r.next != Stopped && r.state.totByteCount >= s.totByteCount
    decreases s.numReq[s.reqIt], 0
  {
    if s.connected && s.numReq[s.reqIt] > 0 then
      SumDecrementAt(s.numReq, s.reqIt);
      SumSuffix(s.numReq, s.reqIt);
      var packet := s.packets[s.packetIt];
      var s' := s.(numReq := s.numReq[s.reqIt := s.numReq[s.reqIt] - 1], packetIt := s.packetIt + 1);
      var r := if packet.delay > 0.0 then Step(s', SendScheduled(packet)) else SendPacketStep(s', packet, apps, txAvailable);
      BytesSplitFirst(s.packets, s.packetIt, r.state.packetIt);
      r
    else if s.numReq[s.reqIt] == 0 then
      EnterReceive(s)
    else
      Step(s, Idle)
  }

  /**
   * SendPacket: a delayed packet waits while a parallel connection lags; a
   * packet larger than the free buffer waits for the buffer.  A packet sent
   * adds its size to the byte total; then the cycle goes on, or, with its
   * count at 0, the client enters receive mode.
   */
  function SendPacketStep(s: ClientState, packet: Packet, apps: seq<ParallelApp>, txAvailable: nat): (r: Step<ClientState>)
    requires s.InCycle()
    ensures r.state.Valid() && r.state.reqIt == s.reqIt
    ensures |r.state.numReq| == |s.numReq| && r.state.numReq == s.numReq[s.reqIt := r.state.numReq[s.reqIt]]
    ensures s.packetIt <= r.state.packetIt && r.state.numReq[s.reqIt] + (r.state.packetIt - s.packetIt) == s.numReq[s.reqIt]
    ensures r.state.packets == s.packets && r.state.expByte == s.expByte
    ensures r.state.totByteCount + Pending(r.next) == s.totByteCount + packet.size + Bytes(s.packets[s.packetIt..r.state.packetIt])
    ensures packet.delay > 0.0 && !ProgressMade(packet, apps) ==> r == Step(s, RetryProgress(packet))
    ensures (packet.delay <= 0.0 || ProgressMade(packet, apps)) && txAvailable < packet.size ==> r == Step(s, RetryBuffer(packet))
    ensures r.next == AwaitData ==> r.state.numReq[s.reqIt] == 0 && r.state.totRecByte == 0 && r.state.totExpByte > 0
    ensures r.next != Stopped && r.state.totByteCount >= s.totByteCount
    decreases s.numReq[s.reqIt], 1
  {
    if packet.delay > 0.0 && !ProgressMade(packet, apps) then
      Step(s, RetryProgress(packet))
    else if txAvailable < packet.size then
      Step(s, RetryBuffer(packet))
    else
      var s' := s.(totByteCount := s.totByteCount + packet.size);
      if s'.numReq[s'.reqIt] > 0 then ScheduleTxStep(s', apps, txAvailable - packet.size)
      else EnterReceive(s')
  }

  /** StopApplication: the client is disconnected (the socket is closed and the pending send cancelled). */
  function StopStep(s: ClientState): (r: Step<ClientState>)
    ensures !r.state.connected && r.next == Stopped
    ensures r.state == s.(connected := false)
  {
    Step(s.(connected := false), Stopped)
  }

  /**
   * ReceivePacket: the received sizes are added to the received bytes and to
   * the byte total.  Short of the expected bytes the client keeps waiting;
   * otherwise it moves to the next cycle and schedules it, or stops when
   * there is none.
   */
  function ReceivePacketStep(s: ClientState, sizes: seq<nat>, apps: seq<ParallelApp>, txAvailable: nat): (r: Step<ClientState>)
    requires s.Valid()
    ensures r.state.Valid()
    ensures r.state.totByteCount >= s.totByteCount + Sum(sizes)
    ensures s.totRecByte + Sum(sizes) < s.totExpByte ==> r == Step(s.(totRecByte := s.totRecByte + Sum(sizes), totByteCount := s.totByteCount + Sum(sizes)), AwaitData)
    ensures s.totRecByte + Sum(sizes) >= s.totExpByte ==> (r.next == Stopped <==> s.reqIt + 1 >= |s.numReq|)
    ensures s.totRecByte + Sum(sizes) >= s.totExpByte && s.reqIt + 1 < |s.numReq| ==> r.state.reqIt == s.reqIt + 1
  {
    var got := Sum(sizes);
    var s' := s.(totRecByte := s.totRecByte + got, totByteCount := s.totByteCount + got);
    if s'.totRecByte < s'.totExpByte then
      Step(s', AwaitData)
    else if s'.reqIt < |s'.numReq| && s'.reqIt + 1 < |s'.numReq| then
      SumSuffix(s'.numReq, s'.reqIt);
      ScheduleTxStep(s'.(reqIt := s'.reqIt + 1), apps, txAvailable)
    else
      StopStep(s'.(reqIt := if s'.reqIt < |s'.numReq| then s'.reqIt + 1 else s'.reqIt))
  }

  /** SendPacket once the packet has passed the gate and the buffer check and its size is counted in s1: which way it goes on. */
  lemma SendOutcome(s: ClientState, packet: Packet, apps: seq<ParallelApp>, txAvailable: nat, s1: ClientState)
    requires s.InCycle()
    requires packet.delay <= 0.0 || ProgressMade(packet, apps)
    requires txAvailable >= packet.size
    requires s1 == s.(totByteCount := s.totByteCount + packet.size)
    ensures s1.InCycle()
    ensures s1.numReq[s1.reqIt] > 0 ==> SendPacketStep(s, packet, apps, txAvailable) == ScheduleTxStep(s1, apps, txAvailable - packet.size)
    ensures s1.numReq[s1.reqIt] == 0 ==> SendPacketStep(s, packet, apps, txAvailable) == EnterReceive(s1)
  {
    assert s1.numReq == s.numReq && s1.reqIt == s.reqIt && s1.packetIt == s.packetIt && s1.packets == s.packets;
    if s1.numReq[s1.reqIt] > 0 {
      SendGoesOn(s, packet, apps, txAvailable);
    } else {
      SendReceives(s, packet, apps, txAvailable);
    }
  }

  lemma SendGoesOn(s: ClientState, packet: Packet, apps: seq<ParallelApp>, txAvailable: nat)
    requires s.InCycle() && s.numReq[s.reqIt] > 0
    requires packet.delay <= 0.0 || ProgressMade(packet, apps)
    requires txAvailable >= packet.size
    ensures SendPacketStep(s, packet, apps, txAvailable) == ScheduleTxStep(s.(totByteCount := s.totByteCount + packet.size), apps, txAvailable - packet.size)
  {
  }

  lemma SendReceives(s: ClientState, packet: Packet, apps: seq<ParallelApp>, txAvailable: nat)
    requires s.InCycle() && s.numReq[s.reqIt] == 0
    requires packet.delay <= 0.0 || ProgressMade(packet, apps)
    requires txAvailable >= packet.size
    ensures SendPacketStep(s, packet, apps, txAvailable) == EnterReceive(s.(totByteCount := s.totByteCount + packet.size))
  {
  }

  /** ReceivePacket after its receive loop has left the counters at s1: which way it goes on. */
  lemma ReceiveOutcome(s: ClientState, sizes: seq<nat>, apps: seq<ParallelApp>, txAvailable: nat, s1: ClientState)
    requires s.Valid()
    requires s1 == s.(totRecByte := s.totRecByte + Sum(sizes), totByteCount := s.totByteCount + Sum(sizes))
    ensures s1.totRecByte < s1.totExpByte ==> ReceivePacketStep(s, sizes, apps, txAvailable) == Step(s1, AwaitData)
    ensures s1.totRecByte >= s1.totExpByte && s1.reqIt + 1 < |s1.numReq| ==>
              && s1.(reqIt := s1.reqIt + 1).InCycle()
              && ReceivePacketStep(s, sizes, apps, txAvailable) == ScheduleTxStep(s1.(reqIt := s1.reqIt + 1), apps, txAvailable)
    ensures s1.totRecByte >= s1.totExpByte && s1.reqIt + 1 >= |s1.numReq| ==>
              ReceivePacketStep(s, sizes, apps, txAvailable) == StopStep(s1.(reqIt := if s1.reqIt < |s1.numReq| then s1.reqIt + 1 else s1.reqIt))
  {
    if s1.reqIt + 1 < |s1.numReq| {
      SumSuffix(s1.numReq, s1.reqIt);
    }
  }

  /**
   * The cycle at the request cursor can go out in one go: the client is
   * connected, the cycle's packets are all present and undelayed, and their
   * bytes fit the free space of the send buffer.
   */
  ghost predicate CycleReady(s: ClientState, txAvailable: nat)
  {
    && s.InCycle() && s.connected
    && s.packetIt + s.numReq[s.reqIt] <= |s.packets|
    && (forall j :: s.packetIt <= j < s.packetIt + s.numReq[s.reqIt] ==> s.packets[j].delay <= 0.0)
    && Bytes(s.packets[s.packetIt..s.packetIt + s.numReq[s.reqIt]]) <= txAvailable
  }

  /**
   * r completes the cycle s is on: every packet of the cycle is sent and its
   * bytes counted, the next expected total is loaded, and the client waits
   * for it, or is closed when that total is 0.
   */
  ghost predicate CycleDone(s: ClientState, r: Step<ClientState>)
    requires s.InCycle()
  {
    && r.state.packetIt == s.packetIt + s.numReq[s.reqIt] <= |s.packets|
    && s.reqIt < |r.state.numReq| && r.state.numReq[s.reqIt] == 0
    && r.state.totByteCount == s.totByteCount + Bytes(s.packets[s.packetIt..r.state.packetIt])
    && (r.state.totExpByte, r.state.expIt) == NextExpected(s.expByte, s.expIt)
    && (r.next == AwaitData || r.next == Closed)
  }

  /** A whole cycle of undelayed packets with room for all of them in the buffer is sent within one ScheduleTx. */
  lemma {:induction false} CycleSendsAll(s: ClientState, apps: seq<ParallelApp>, txAvailable: nat)
    requires CycleReady(s, txAvailable)
    ensures CycleDone(s, ScheduleTxStep(s, apps, txAvailable))
    decreases s.numReq[s.reqIt]
  {
    if s.numReq[s.reqIt] == 0 {
      EmptyCycleDone(s, apps, txAvailable);
    } else {
      var t := SentOne(s);
      SendsAtOnce(s, apps, txAvailable);
      if t.numReq[t.reqIt] == 0 {
        LastSendDone(s, txAvailable);
      } else {
        var tx := txAvailable - s.packets[s.packetIt].size;
        ReadyAfterSend(s, txAvailable);
        CycleSendsAll(t, apps, tx);
        DoneAfterSend(s, ScheduleTxStep(t, apps, tx));
      }
    }
  }

  /** The state after ScheduleTx has taken the packet at the cursor and SendPacket has sent it. */
  function SentOne(s: ClientState): (t: ClientState)
    requires s.InCycle() && s.numReq[s.reqIt] > 0 && s.packetIt < |s.packets|
    ensures t.InCycle() && t.reqIt == s.reqIt && t.packets == s.packets && t.packetIt == s.packetIt + 1
    ensures t.numReq[t.reqIt] + 1 == s.numReq[s.reqIt]
  {
    SumDecrementAt(s.numReq, s.reqIt);
    s.(numReq := s.numReq[s.reqIt := s.numReq[s.reqIt] - 1], packetIt := s.packetIt + 1,
       totByteCount := s.totByteCount + s.packets[s.packetIt].size)
  }

  /** One undelayed packet with room in the buffer: ScheduleTx sends it at once and goes on from SentOne(s). */
  lemma SendsAtOnce(s: ClientState, apps: seq<ParallelApp>, txAvailable: nat)
    requires s.InCycle() && s.connected && s.numReq[s.reqIt] > 0 && s.packetIt < |s.packets|
    requires s.packets[s.packetIt].delay <= 0.0 && s.packets[s.packetIt].size <= txAvailable
    ensures var t := SentOne(s);
            ScheduleTxStep(s, apps, txAvailable) ==
              if t.numReq[t.reqIt] > 0 then ScheduleTxStep(t, apps, txAvailable - s.packets[s.packetIt].size) else EnterReceive(t)
  {
    SumDecrementAt(s.numReq, s.reqIt);
  }

  lemma EmptyCycleDone(s: ClientState, apps: seq<ParallelApp>, txAvailable: nat)
    requires CycleReady(s, txAvailable) && s.numReq[s.reqIt] == 0
    ensures CycleDone(s, ScheduleTxStep(s, apps, txAvailable))
  {
    assert s.packets[s.packetIt..s.packetIt] == [];
  }

  lemma LastSendDone(s: ClientState, txAvailable: nat)
    requires CycleReady(s, txAvailable) && s.numReq[s.reqIt] == 1
    ensures CycleDone(s, EnterReceive(SentOne(s)))
  {
    BytesSplitFirst(s.packets, s.packetIt, s.packetIt + 1);
    assert s.packets[s.packetIt + 1..s.packetIt + 1] == [];
  }

  lemma ReadyAfterSend(s: ClientState, txAvailable: nat)
    requires CycleReady(s, txAvailable) && s.numReq[s.reqIt] > 1
    ensures s.packets[s.packetIt].size <= txAvailable
    ensures CycleReady(SentOne(s), txAvailable - s.packets[s.packetIt].size)
  {
    var end := s.packetIt + s.numReq[s.reqIt];
    BytesSplitFirst(s.packets, s.packetIt, end);
  }

  lemma DoneAfterSend(s: ClientState, r: Step<ClientState>)
    requires s.InCycle() && s.numReq[s.reqIt] > 0 && s.packetIt + s.numReq[s.reqIt] <= |s.packets|
    requires CycleDone(SentOne(s), r)
    ensures CycleDone(s, r)
  {
    BytesSplitFirst(s.packets, s.packetIt, s.packetIt + s.numReq[s.reqIt]);
  }

  /** The mutable application: the same fields, updated in place by the handlers. */
  class TraceReplayClient {
    var connected: bool
    var numReq: seq<nat>
    var reqIt: nat
    var expByte: seq<nat>
    var expIt: nat
    var packetList: seq<Packet>
    var packetIt: nat
    var totRecByte: nat
    var totExpByte: nat
    var totByteCount: nat

    function State(): ClientState
      reads this
    {
      ClientState(connected, numReq, reqIt, expByte, expIt, packetList, packetIt, totRecByte, totExpByte, totByteCount)
    }

    /** A new client is disconnected, with every counter at 0. */
    constructor ()
      ensures !connected && totRecByte == 0 && totExpByte == 0 && totByteCount == 0
      ensures State().Valid()
    {
      connected := false;
      numReq := [];
      reqIt := 0;
      expByte := [];
      expIt := 0;
      packetList := [];
      packetIt := 0;
      totRecByte := 0;
      totExpByte := 0;
      totByteCount := 0;
    }

    /** GetTotalByteCount: the bytes this connection has sent and received. */
    function GetTotalByteCount(): nat
      reads this
    {
      totByteCount
    }

    method Setup(numReqIn: seq<nat>, expByteIn: seq<nat>, packets: seq<Packet>)
      modifies this
      ensures State() == SetupState(old(State()), numReqIn, expByteIn, packets)
    {
      numReq := numReqIn;
      if numReq == [] {
        numReq := numReq + [0];
      }
      reqIt := 0;
      expByte := expByteIn;
      if expByte == [] {
        expByte := expByte + [0];
      }
      expIt := 0;
      packetList := packets;
      packetIt := 0;
    }

    /** The shared tail of ScheduleTx and SendPacket once the cycle's packets are sent. */
    method EnterReceiveMode() returns (next: Next)
      requires State().Valid()
      modifies this
      ensures State() == EnterReceive(old(State())).state && next == EnterReceive(old(State())).next
    {
      if expIt < |expByte| {
        totExpByte := expByte[expIt];
        expIt := expIt + 1;
      } else {
        totExpByte := 0;
      }
      totRecByte := 0;
      if totExpByte == 0 {
        connected := false;
        next := Closed;
      } else {
        next := AwaitData;
      }
    }

    method ScheduleTx(apps: seq<ParallelApp>, txAvailable: nat) returns (next: Next)
      requires State().InCycle()
      modifies this
      ensures State() == ScheduleTxStep(old(State()), apps, txAvailable).state
      ensures next == ScheduleTxStep(old(State()), apps, txAvailable).next
      decreases numReq[reqIt], 0
    {
      if connected && numReq[reqIt] > 0 {
        SumDecrementAt(numReq, reqIt);
        numReq := numReq[reqIt := numReq[reqIt] - 1];
        var packet := packetList[packetIt];
        packetIt := packetIt + 1;
        if packet.delay > 0.0 {
          next := SendScheduled(packet);
        } else {
          next := SendPacket(packet, apps, txAvailable);
        }
      } else if numReq[reqIt] == 0 {
        next := EnterReceiveMode();
      } else {
        next := Idle;
      }
    }

    method SendPacket(packet: Packet, apps: seq<ParallelApp>, txAvailable: nat) returns (next: Next)
      requires State().InCycle()
      modifies this
      ensures State() == SendPacketStep(old(State()), packet, apps, txAvailable).state
      ensures next == SendPacketStep(old(State()), packet, apps, txAvailable).next
      decreases numReq[reqIt], 1
    {
      if packet.delay > 0.0 {
        var okToSend := CheckParallelProgress(packet, apps);
        if !okToSend {
          return RetryProgress(packet);
        }
      }
      if txAvailable < packet.size {
        return RetryBuffer(packet);
      }
      totByteCount := totByteCount + packet.size;
      SendOutcome(old(State()), packet, apps, txAvailable, State());
      if numReq[reqIt] > 0 {
        next := ScheduleTx(apps, txAvailable - packet.size);
      } else {
        next := EnterReceiveMode();
      }
    }

    method StopApplication() returns (next: Next)
      modifies this
      ensures State() == StopStep(old(State())).state && next == StopStep(old(State())).next
    {
      connected := false;
      next := Stopped;
    }

    /** ConnectionSucceeded: the client is connected and starts its first cycle. */
    method ConnectionSucceeded(apps: seq<ParallelApp>, txAvailable: nat) returns (next: Next)
      requires State().InCycle()
      modifies this
      ensures State() == ScheduleTxStep(old(State()).(connected := true), apps, txAvailable).state
      ensures next == ScheduleTxStep(old(State()).(connected := true), apps, txAvailable).next
    {
      connected := true;
      next := ScheduleTx(apps, txAvailable);
    }

    /** The receive loop of ReceivePacket: each non-empty packet adds its size to both counters. */
    method AddReceived(sizes: seq<nat>)
      modifies this
      ensures State() == old(State()).(totRecByte := old(totRecByte) + Sum(sizes), totByteCount := old(totByteCount) + Sum(sizes))
    {
      var i := 0;
      while i < |sizes|
        invariant i <= |sizes|
        invariant State() == old(State()).(totRecByte := old(totRecByte) + Sum(sizes[..i]), totByteCount := old(totByteCount) + Sum(sizes[..i]))
      {
        SumPrefixStep(sizes, i);
        if sizes[i] > 0 {
          totRecByte := totRecByte + sizes[i];
          totByteCount := totByteCount + sizes[i];
        }
        i := i + 1;
      }
      assert sizes[..i] == sizes;
    }

    method ReceivePacket(sizes: seq<nat>, apps: seq<ParallelApp>, txAvailable: nat) returns (next: Next)
      requires State().Valid()
      modifies this
      ensures State() == ReceivePacketStep(old(State()), sizes, apps, txAvailable).state
      ensures next == ReceivePacketStep(old(State()), sizes, apps, txAvailable).next
    {
      AddReceived(sizes);
      ReceiveOutcome(old(State()), sizes, apps, txAvailable, State());
      if totRecByte < totExpByte {
        next := AwaitData;
      } else if reqIt < |numReq| && reqIt + 1 < |numReq| {
        reqIt := reqIt + 1;
        next := ScheduleTx(apps, txAvailable);
      } else {
        if reqIt < |numReq| {
          reqIt := reqIt + 1;
        }
        next := StopApplication();
      }
    }
  }
}
