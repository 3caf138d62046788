/**
 * TraceReplayServer: replays the server side of one captured connection.
 *
 * The server starts in receive mode, waiting for the bytes of the client's
 * first cycle.  Once they have arrived it sends its reply, the current count
 * of packets from its packet list, then loads the next expected total and
 * moves its reply cursor on.  Unlike the client it never stops by itself.
 */
module Server {
  import opened Utility
  import opened Sums
  import opened Replay

  /** The fields of TraceReplayServer that the handlers read and update; cursors are indices. */
  datatype ServerState = ServerState(
    connected: bool,
    numRep: seq<nat>, repIt: nat,
    expByte: seq<nat>, expIt: nat,
    packets: seq<Packet>, packetIt: nat,
    totRecByte: nat, totExpByte: nat, totByteCount: nat)
  {
    /**
     * The cursors stay within their vectors (the reply cursor reaches the end
     * after the last reply), and the packets left cover the counts still to
     * be sent.
     */
    ghost predicate Valid()
    {
      && repIt <= |numRep| && expIt <= |expByte|
      && packetIt + Sum(numRep[repIt..]) <= |packets|
    }

    /** Sending is possible: the reply cursor is on a cycle. */
    ghost predicate InCycle()
    {
      Valid() && repIt < |numRep|
    }
  }

  /**
   * Setup: an empty count or expectation list becomes [0]; the reply and
   * packet cursors are at the start, and the first expected total is already
   * loaded because the server starts in receive mode.
   */
  function SetupState(s: ServerState, numRep: seq<nat>, expByte: seq<nat>, packetList: seq<Packet>): (r: ServerState)
    ensures r.numRep != [] && r.expByte != []
    ensures r.repIt == 0 && r.packetIt == 0
    ensures r.numRep == (if numRep == [] then [0] else numRep) && r.expByte == (if expByte == [] then [0] else expByte)
    ensures r.totExpByte == r.expByte[0] && r.expIt == 1
    ensures r.packets == packetList
    ensures r.connected == s.connected && r.totRecByte == s.totRecByte && r.totByteCount == s.totByteCount
  {
    var expByte' := if expByte == [] then [0] else expByte;
    s.(numRep := if numRep == [] then [0] else numRep, repIt := 0,
       expByte := expByte', expIt := 1, totExpByte := expByte'[0],
       packets := packetList, packetIt := 0)
  }

  /** When the packets cover the counts, as Install provides them, Setup leaves the server valid and on its first cycle. */
  lemma SetupValid(s: ServerState, numRep: seq<nat>, expByte: seq<nat>, packetList: seq<Packet>)
    requires Sum(numRep) <= |packetList|
    ensures SetupState(s, numRep, expByte, packetList).InCycle()
  {
    var r := SetupState(s, numRep, expByte, packetList);
    assert r.numRep[0..] == r.numRep;
    if numRep == [] {
      assert Sum([0]) == 0 + Sum([0][1..]);
    }
  }

  /** Receive mode: load the next expected byte total and reset the received bytes. */
  function ExpectNext(s: ServerState): (r: ServerState)
    requires s.Valid()
    ensures r.Valid()
    ensures r == s.(totExpByte := r.totExpByte, expIt := r.expIt, totRecByte := 0)
    ensures (r.totExpByte, r.expIt) == NextExpected(s.expByte, s.expIt)
  {
    var e := NextExpected(s.expByte, s.expIt);
    s.(totExpByte := e.0, expIt := e.1, totRecByte := 0)
  }

  /**
   * ScheduleTx: while connected with packets left in the reply, take one
   * from the count and the next packet from the list; a delayed packet is
   * scheduled, any other is sent at once.  With the count at 0 the server
   * loads the next expected total and installs ReceivePacket on its listening
   * socket rather than on the accepted connection, so that connection's data
   * reaches no handler.  Sending takes exactly
   * as many packets as it takes from the count, every packet taken is either
   * sent (its bytes counted) or still pending, and the reply cursor moves at
   * most one cycle on, only when the reply is complete.
   */
  function ScheduleTxStep(s: ServerState, apps: seq<ParallelApp>, txAvailable: nat): (r: Step<ServerState>)
    requires s.InCycle()
    ensures r.state.Valid()
    ensures |r.state.numRep| == |s.numRep| && r.state.numRep == s.numRep[s.repIt := r.state.numRep[s.repIt]]
    ensures s.packetIt <= r.state.packetIt && r.state.numRep[s.repIt] + (r.state.packetIt - s.packetIt) == s.numRep[s.repIt]
    ensures r.state.repIt == s.repIt || (r.state.repIt == s.repIt + 1 && r.state.numRep[s.repIt] == 0 && r.next == AwaitData)
    ensures r.state.packets == s.packets && r.state.expByte == s.expByte
    ensures r.state.totByteCount + Pending(r.next) == s.totByteCount + Bytes(s.packets[s.packetIt..r.state.packetIt])
    ensures r.state.totByteCount >= s.totByteCount
    ensures r.next == AwaitData ==> r.state.numRep[s.repIt] == 0 && r.state.totRecByte == 0
    ensures r.next != Stopped && r.next != Closed
    ensures r.next == AwaitOnListener <==> s.numRep[s.repIt] == 0
    decreases s.numRep[s.repIt], 0
  {
    if s.connected && s.numRep[s.repIt] > 0 then
      SumDecrementAt(s.numRep, s.repIt);
      SumSuffix(s.numRep, s.repIt);
      var packet := s.packets[s.packetIt];
      var s' := s.(numRep := s.numRep[s.repIt := s.numRep[s.repIt] - 1], packetIt := s.packetIt + 1);
      var r := if packet.delay > 0.0 then Step(s', SendScheduled(packet)) else SendPacketStep(s', packet, apps, txAvailable);
      BytesSplitFirst(s.packets, s.packetIt, r.state.packetIt);
      r
    else if s.numRep[s.repIt] == 0 then
      Step(ExpectNext(s), AwaitOnListener)
    else
      Step(s, Idle)
  }

  /**
   * SendPacket: a delayed packet waits while a parallel connection lags; a
   * packet larger than the free buffer waits for the buffer.  A packet sent
   * adds its size to the byte total; then the reply goes on, or, with its
   * count at 0, the server loads the next expected total, moves the reply
   * cursor past the finished cycle and waits for data.
   */
  function SendPacketStep(s: ServerState, packet: Packet, apps: seq<ParallelApp>, txAvailable: nat): (r: Step<ServerState>)
    requires s.InCycle()
    ensures r.state.Valid()
    ensures |r.state.numRep| == |s.numRep| && r.state.numRep == s.numRep[s.repIt := r.state.numRep[s.repIt]]
    ensures s.packetIt <= r.state.packetIt && r.state.numRep[s.repIt] + (r.state.packetIt - s.packetIt) == s.numRep[s.repIt]
    ensures r.state.repIt == s.repIt || (r.state.repIt == s.repIt + 1 && r.state.numRep[s.repIt] == 0 && r.next == AwaitData)
    ensures r.state.packets == s.packets && r.state.expByte == s.expByte
    ensures r.state.totByteCount + Pending(r.next) == s.totByteCount + packet.size + Bytes(s.packets[s.packetIt..r.state.packetIt])
    ensures r.state.totByteCount >= s.totByteCount
    ensures packet.delay > 0.0 && !ProgressMade(packet, apps) ==> r == Step(s, RetryProgress(packet))
    ensures (packet.delay <= 0.0 || ProgressMade(packet, apps)) && txAvailable < packet.size ==> r == Step(s, RetryBuffer(packet))
    ensures r.next == AwaitData ==> r.state.numRep[s.repIt] == 0 && r.state.totRecByte == 0
    ensures r.next != Stopped && r.next != Closed && r.next != AwaitOnListener
    decreases s.numRep[s.repIt], 1
  {
    if packet.delay > 0.0 && !ProgressMade(packet, apps) then
      Step(s, RetryProgress(packet))
    else if txAvailable < packet.size then
      Step(s, RetryBuffer(packet))
    else
      var s' := s.(totByteCount := s.totByteCount + packet.size);
      if s'.numRep[s'.repIt] > 0 then
        ScheduleTxStep(s', apps, txAvailable - packet.size)
      else
        var s'' := ExpectNext(s');
        SumSuffix(s''.numRep, s''.repIt);
        Step(if s''.numRep[s''.repIt] == 0 then s''.(repIt := s''.repIt + 1) else s'', AwaitData)
  }

  /** HandleAccept: with nothing to receive first the server starts its reply, otherwise it waits for data. */
  function HandleAcceptStep(s: ServerState, apps: seq<ParallelApp>, txAvailable: nat): (r: Step<ServerState>)
    requires s.InCycle()
    ensures s.totExpByte == 0 ==> r == ScheduleTxStep(s, apps, txAvailable)
    ensures s.totExpByte != 0 ==> r == Step(s, AwaitData)
  {
    if s.totExpByte == 0 then ScheduleTxStep(s, apps, txAvailable) else Step(s, AwaitData)
  }

  /**
   * A server side whose first cycle expects nothing and replies nothing,
   * followed by more cycles: HandleAccept goes straight to ScheduleTx, whose
   * count is 0, so the receive handler goes to the listening socket and the
   * later cycles are never reached.
   */
  lemma FirstEmptyCycleListens(s: ServerState, numRep: seq<nat>, expByte: seq<nat>, packetList: seq<Packet>, apps: seq<ParallelApp>, txAvailable: nat)
    requires Sum(numRep) <= |packetList|
    requires |numRep| > 1 && numRep[0] == 0 && expByte != [] && expByte[0] == 0
    ensures var r := HandleAcceptStep(SetupState(s, numRep, expByte, packetList), apps, txAvailable);
            r.next == AwaitOnListener && r.state.repIt == 0 && r.state.packetIt == 0
  {
    SetupValid(s, numRep, expByte, packetList);
  }

  /**
   * ReceivePacket: the received sizes are added to the received bytes and to
   * the byte total.  Short of the expected bytes the server keeps waiting;
   * otherwise it sends its reply when the reply cursor is on a cycle with
   * packets to send, and else does nothing.  It never closes or stops.
   */
  function ReceivePacketStep(s: ServerState, sizes: seq<nat>, apps: seq<ParallelApp>, txAvailable: nat): (r: Step<ServerState>)
    requires s.Valid()
    ensures r.state.Valid()
    ensures r.state.totByteCount >= s.totByteCount + Sum(sizes)
    ensures r.next != Stopped && r.next != Closed && r.next != AwaitOnListener
    ensures s.totRecByte + Sum(sizes) < s.totExpByte ==> r.next == AwaitData
  {
    var got := Sum(sizes);
    var s' := s.(totRecByte := s.totRecByte + got, totByteCount := s.totByteCount + got);
    if s'.totRecByte < s'.totExpByte then
      Step(s', AwaitData)
    else if s'.repIt < |s'.numRep| && s'.numRep[s'.repIt] > 0 then
      ScheduleTxStep(s', apps, txAvailable)
    else
      Step(s', Idle)
  }

  /** StopApplication: the server is disconnected and stops accepting. */
  function StopStep(s: ServerState): (r: Step<ServerState>)
    ensures !r.state.connected && r.next == Stopped
    ensures r.state == s.(connected := false)
  {
    Step(s.(connected := false), Stopped)
  }

  /**
   * The reply at the reply cursor can go out in one go: the server is
   * connected, the reply's packets are all present and undelayed, and their
   * bytes fit the free space of the send buffer.
   */
  ghost predicate ReplyReady(s: ServerState, txAvailable: nat)
  {
    && s.InCycle() && s.connected && s.numRep[s.repIt] > 0
    && s.packetIt + s.numRep[s.repIt] <= |s.packets|
    && (forall j :: s.packetIt <= j < s.packetIt + s.numRep[s.repIt] ==> s.packets[j].delay <= 0.0)
    && Bytes(s.packets[s.packetIt..s.packetIt + s.numRep[s.repIt]]) <= txAvailable
  }

  /**
   * r completes the reply s is on: every packet of the reply is sent and its
   * bytes counted, the reply cursor is on the next cycle, and the server
   * waits for the next expected total with nothing received yet.
   */
  ghost predicate ReplyDone(s: ServerState, r: Step<ServerState>)
    requires s.InCycle()
  {
    && r.state.packetIt == s.packetIt + s.numRep[s.repIt] <= |s.packets|
    && s.repIt < |r.state.numRep| && r.state.numRep[s.repIt] == 0
    && r.state.repIt == s.repIt + 1
    && r.state.totByteCount == s.totByteCount + Bytes(s.packets[s.packetIt..r.state.packetIt])
    && (r.state.totExpByte, r.state.expIt) == NextExpected(s.expByte, s.expIt)
    && r.state.totRecByte == 0
    && r.next == AwaitData
  }

  /** A whole reply of undelayed packets with room for all of them in the buffer is sent within one ScheduleTx. */
  lemma {:induction false} ReplySendsAll(s: ServerState, apps: seq<ParallelApp>, txAvailable: nat)
    requires ReplyReady(s, txAvailable)
    ensures ReplyDone(s, ScheduleTxStep(s, apps, txAvailable))
    decreases s.numRep[s.repIt]
  {
    var t := RepliedOne(s);
    RepliesAtOnce(s, apps, txAvailable);
    if t.numRep[t.repIt] == 0 {
      LastReplyDone(s, txAvailable);
    } else {
      var tx := txAvailable - s.packets[s.packetIt].size;
      ReadyAfterReply(s, txAvailable);
      ReplySendsAll(t, apps, tx);
      DoneAfterReply(s, ScheduleTxStep(t, apps, tx));
    }
  }

  /** The state after ScheduleTx has taken the packet at the cursor and SendPacket has sent it. */
  function RepliedOne(s: ServerState): (t: ServerState)
    requires s.InCycle() && s.numRep[s.repIt] > 0 && s.packetIt < |s.packets|
    ensures t.InCycle() && t.repIt == s.repIt && t.packets == s.packets && t.packetIt == s.packetIt + 1
    ensures t.numRep[t.repIt] + 1 == s.numRep[s.repIt]
  {
    SumDecrementAt(s.numRep, s.repIt);
    s.(numRep := s.numRep[s.repIt := s.numRep[s.repIt] - 1], packetIt := s.packetIt + 1,
       totByteCount := s.totByteCount + s.packets[s.packetIt].size)
  }

  /**
   * One undelayed packet with room in the buffer: ScheduleTx sends it at
   * once and goes on from RepliedOne(s); after the last one the server loads
   * the next expected total and moves on.
   */
  lemma RepliesAtOnce(s: ServerState, apps: seq<ParallelApp>, txAvailable: nat)
    requires s.InCycle() && s.connected && s.numRep[s.repIt] > 0 && s.packetIt < |s.packets|
    requires s.packets[s.packetIt].delay <= 0.0 && s.packets[s.packetIt].size <= txAvailable
    ensures var t := RepliedOne(s);
            ScheduleTxStep(s, apps, txAvailable) ==
              if t.numRep[t.repIt] > 0 then ScheduleTxStep(t, apps, txAvailable - s.packets[s.packetIt].size)
              else Step(ExpectNext(t).(repIt := t.repIt + 1), AwaitData)
  {
    SumDecrementAt(s.numRep, s.repIt);
  }

  lemma LastReplyDone(s: ServerState, txAvailable: nat)
    requires ReplyReady(s, txAvailable) && s.numRep[s.repIt] == 1
    ensures var t := RepliedOne(s);
            ReplyDone(s, Step(ExpectNext(t).(repIt := t.repIt + 1), AwaitData))
  {
    BytesSplitFirst(s.packets, s.packetIt, s.packetIt + 1);
    assert s.packets[s.packetIt + 1..s.packetIt + 1] == [];
  }

  lemma ReadyAfterReply(s: ServerState, txAvailable: nat)
    requires ReplyReady(s, txAvailable) && s.numRep[s.repIt] > 1
    ensures s.packets[s.packetIt].size <= txAvailable
    ensures ReplyReady(RepliedOne(s), txAvailable - s.packets[s.packetIt].size)
  {
    BytesSplitFirst(s.packets, s.packetIt, s.packetIt + s.numRep[s.repIt]);
  }

  lemma DoneAfterReply(s: ServerState, r: Step<ServerState>)
    requires s.InCycle() && s.numRep[s.repIt] > 0 && s.packetIt + s.numRep[s.repIt] <= |s.packets|
    requires ReplyDone(RepliedOne(s), r)
    ensures ReplyDone(s, r)
  {
    BytesSplitFirst(s.packets, s.packetIt, s.packetIt + s.numRep[s.repIt]);
  }

  /** SendPacket once the packet has passed the gate and the buffer check and its size is counted in s1: which way it goes on. */
  lemma SendOutcome(s: ServerState, packet: Packet, apps: seq<ParallelApp>, txAvailable: nat, s1: ServerState)
    requires s.InCycle()
    requires packet.delay <= 0.0 || ProgressMade(packet, apps)
    requires txAvailable >= packet.size
    requires s1 == s.(totByteCount := s.totByteCount + packet.size)
    ensures s1.InCycle()
    ensures s1.numRep[s1.repIt] > 0 ==> SendPacketStep(s, packet, apps, txAvailable) == ScheduleTxStep(s1, apps, txAvailable - packet.size)
    ensures s1.numRep[s1.repIt] == 0 ==> SendPacketStep(s, packet, apps, txAvailable) == Step(ExpectNext(s1).(repIt := s1.repIt + 1), AwaitData)
  {
    assert s1.numRep == s.numRep && s1.repIt == s.repIt && s1.packetIt == s.packetIt && s1.packets == s.packets;
    if s1.numRep[s1.repIt] > 0 {
      SendGoesOn(s, packet, apps, txAvailable);
    } else {
      SendAwaits(s, packet, apps, txAvailable);
    }
  }

  lemma SendGoesOn(s: ServerState, packet: Packet, apps: seq<ParallelApp>, txAvailable: nat)
    requires s.InCycle() && s.numRep[s.repIt] > 0
    requires packet.delay <= 0.0 || ProgressMade(packet, apps)
    requires txAvailable >= packet.size
    ensures SendPacketStep(s, packet, apps, txAvailable) == ScheduleTxStep(s.(totByteCount := s.totByteCount + packet.size), apps, txAvailable - packet.size)
  {
  }

  lemma SendAwaits(s: ServerState, packet: Packet, apps: seq<ParallelApp>, txAvailable: nat)
    requires s.InCycle() && s.numRep[s.repIt] == 0
    requires packet.delay <= 0.0 || ProgressMade(packet, apps)
    requires txAvailable >= packet.size
    ensures var s1 := s.(totByteCount := s.totByteCount + packet.size);
            SendPacketStep(s, packet, apps, txAvailable) == Step(ExpectNext(s1).(repIt := s1.repIt + 1), AwaitData)
  {
    var s1 := s.(totByteCount := s.totByteCount + packet.size);
    assert ExpectNext(s1).numRep[s1.repIt] == 0;
  }

  /** ScheduleTx with packets left in the reply: the next packet is taken, then scheduled or sent at once. */
  lemma ScheduleOutcome(s: ServerState, apps: seq<ParallelApp>, txAvailable: nat, s1: ServerState)
    requires s.InCycle() && s.connected && s.numRep[s.repIt] > 0
    requires s1 == s.(numRep := s.numRep[s.repIt := s.numRep[s.repIt] - 1], packetIt := s.packetIt + 1)
    ensures s.packetIt < |s.packets| && s1.InCycle()
    ensures s.packets[s.packetIt].delay > 0.0 ==> ScheduleTxStep(s, apps, txAvailable) == Step(s1, SendScheduled(s.packets[s.packetIt]))
    ensures s.packets[s.packetIt].delay <= 0.0 ==> ScheduleTxStep(s, apps, txAvailable) == SendPacketStep(s1, s.packets[s.packetIt], apps, txAvailable)
  {
    TakeKeepsCycle(s, s1);
  }

  /** Taking one packet of a pending reply keeps the packets left covering the counts. */
  lemma TakeKeepsCycle(s: ServerState, s1: ServerState)
    requires s.InCycle() && s.numRep[s.repIt] > 0
    requires s1 == s.(numRep := s.numRep[s.repIt := s.numRep[s.repIt] - 1], packetIt := s.packetIt + 1)
    ensures s.packetIt < |s.packets| && s1.InCycle()
  {
    SumDecrementAt(s.numRep, s.repIt);
    SumSuffix(s.numRep, s.repIt);
  }

  /** ReceivePacket after its receive loop has left the counters at s1: which way it goes on. */
  lemma ReceiveOutcome(s: ServerState, sizes: seq<nat>, apps: seq<ParallelApp>, txAvailable: nat, s1: ServerState)
    requires s.Valid()
    requires s1 == s.(totRecByte := s.totRecByte + Sum(sizes), totByteCount := s.totByteCount + Sum(sizes))
    ensures s1.totRecByte < s1.totExpByte ==> ReceivePacketStep(s, sizes, apps, txAvailable) == Step(s1, AwaitData)
    ensures s1.totRecByte >= s1.totExpByte && s1.repIt < |s1.numRep| && s1.numRep[s1.repIt] > 0 ==>
              s1.InCycle() && ReceivePacketStep(s, sizes, apps, txAvailable) == ScheduleTxStep(s1, apps, txAvailable)
    ensures s1.totRecByte >= s1.totExpByte && !(s1.repIt < |s1.numRep| && s1.numRep[s1.repIt] > 0) ==>
              ReceivePacketStep(s, sizes, apps, txAvailable) == Step(s1, Idle)
  {
    if s1.totRecByte >= s1.totExpByte && s1.repIt < |s1.numRep| && s1.numRep[s1.repIt] > 0 {
      ReceiveGoesOn(s, sizes, apps, txAvailable);
    }
  }

  lemma ReceiveGoesOn(s: ServerState, sizes: seq<nat>, apps: seq<ParallelApp>, txAvailable: nat)
    requires s.Valid() && s.repIt < |s.numRep| && s.numRep[s.repIt] > 0
    requires s.totRecByte + Sum(sizes) >= s.totExpByte
    ensures var s1 := s.(totRecByte := s.totRecByte + Sum(sizes), totByteCount := s.totByteCount + Sum(sizes));
            s1.InCycle() && ReceivePacketStep(s, sizes, apps, txAvailable) == ScheduleTxStep(s1, apps, txAvailable)
  {
    var s1 := s.(totRecByte := s.totRecByte + Sum(sizes), totByteCount := s.totByteCount + Sum(sizes));
    assert s1.numRep == s.numRep && s1.repIt == s.repIt && s1.packetIt == s.packetIt && s1.packets == s.packets;
  }

  /** The mutable application: the same fields, updated in place by the handlers. */
  class TraceReplayServer {
    var connected: bool
    var numRep: seq<nat>
    var repIt: nat
    var expByte: seq<nat>
    var expIt: nat
    var packetList: seq<Packet>
    var packetIt: nat
    var totRecByte: nat
    var totExpByte: nat
    var totByteCount: nat

    function State(): ServerState
      reads this
    {
      ServerState(connected, numRep, repIt, expByte, expIt, packetList, packetIt, totRecByte, totExpByte, totByteCount)
    }

    /** A new server is disconnected, with every counter at 0. */
    constructor ()
      ensures !connected && totRecByte == 0 && totExpByte == 0 && totByteCount == 0
      ensures State().Valid()
    {
      connected := false;
      numRep := [];
      repIt := 0;
      expByte := [];
      expIt := 0;
      packetList := [];
      packetIt := 0;
      totRecByte := 0;
      totExpByte := 0;
      totByteCount := 0;
    }

    /** GetTotalByteCount: the bytes this connection has sent and received. */
    function GetTotalByteCount(): nat
      reads this
    {
      totByteCount
    }

    method Setup(numRepIn: seq<nat>, expByteIn: seq<nat>, packets: seq<Packet>)
      modifies this
      ensures State() == SetupState(old(State()), numRepIn, expByteIn, packets)
    {
      numRep := numRepIn;
      if numRep == [] {
        numRep := [0];
      }
      repIt := 0;
      expByte := expByteIn;
      if expByte == [] {
        expByte := [0];
      }
      totExpByte := expByte[0];
      expIt := 1;
      packetList := packets;
      packetIt := 0;
    }

    /** StartApplication: the server is connected (the listening socket is not modelled). */
    method StartApplication()
      modifies this
      ensures State() == old(State()).(connected := true)
    {
      connected := true;
    }

    method StopApplication() returns (next: Next)
      modifies this
      ensures State() == StopStep(old(State())).state && next == StopStep(old(State())).next
    {
      connected := false;
      next := Stopped;
    }

    /** Receive mode as ScheduleTx and SendPacket enter it: the next expected total, nothing received yet. */
    method LoadExpected()
      requires State().Valid()
      modifies this
      ensures State() == ExpectNext(old(State()))
    {
      if expIt < |expByte| {
        totExpByte := expByte[expIt];
        expIt := expIt + 1;
      } else {
        totExpByte := 0;
      }
      totRecByte := 0;
    }

    method HandleAccept(apps: seq<ParallelApp>, txAvailable: nat) returns (next: Next)
      requires State().InCycle()
      modifies this
      ensures State() == HandleAcceptStep(old(State()), apps, txAvailable).state
      ensures next == HandleAcceptStep(old(State()), apps, txAvailable).next
    {
      if totExpByte == 0 {
        next := ScheduleTx(apps, txAvailable);
      } else {
        next := AwaitData;
      }
    }

    method ScheduleTx(apps: seq<ParallelApp>, txAvailable: nat) returns (next: Next)
      requires State().InCycle()
      modifies this
      ensures State() == ScheduleTxStep(old(State()), apps, txAvailable).state
      ensures next == ScheduleTxStep(old(State()), apps, txAvailable).next
      decreases numRep[repIt], 0
    {
      if connected && numRep[repIt] > 0 {
        ghost var s1 := State().(numRep := numRep[repIt := numRep[repIt] - 1], packetIt := packetIt + 1);
        ScheduleOutcome(State(), apps, txAvailable, s1);
        numRep := numRep[repIt := numRep[repIt] - 1];
        var packet := packetList[packetIt];
        packetIt := packetIt + 1;
        assert State() == s1;
        if packet.delay > 0.0 {
          next := SendScheduled(packet);
        } else {
          next := SendPacket(packet, apps, txAvailable);
        }
      } else if numRep[repIt] == 0 {
        LoadExpected();
        next := AwaitOnListener;
      } else {
        next := Idle;
      }
    }

    method SendPacket(packet: Packet, apps: seq<ParallelApp>, txAvailable: nat) returns (next: Next)
      requires State().InCycle()
      modifies this
      ensures State() == SendPacketStep(old(State()), packet, apps, txAvailable).state
      ensures next == SendPacketStep(old(State()), packet, apps, txAvailable).next
      decreases numRep[repIt], 1
    {
      ghost var goal := SendPacketStep(State(), packet, apps, txAvailable);
      if packet.delay > 0.0 {
        var okToSend := CheckParallelProgress(packet, apps);
        if !okToSend {
          assert goal == Step(old(State()), RetryProgress(packet));
          return RetryProgress(packet);
        }
      }
      if txAvailable < packet.size {
        assert goal == Step(old(State()), RetryBuffer(packet));
        return RetryBuffer(packet);
      }
      totByteCount := totByteCount + packet.size;
      ghost var s1 := State();
      SendOutcome(old(State()), packet, apps, txAvailable, s1);
      if numRep[repIt] > 0 {
        assert goal == ScheduleTxStep(State(), apps, txAvailable - packet.size);
        next := ScheduleTx(apps, txAvailable - packet.size);
      } else {
        assert goal == Step(ExpectNext(s1).(repIt := s1.repIt + 1), AwaitData);
        LoadExpected();
        assert State() == ExpectNext(s1);
        if repIt < |numRep| && numRep[repIt] == 0 {
          repIt := repIt + 1;
        }
        assert State() == ExpectNext(s1).(repIt := s1.repIt + 1);
        next := AwaitData;
        assert State() == goal.state && next == goal.next;
      }
    }

    /** The receive loop of ReceivePacket: each non-empty packet adds its size to both counters. */
    method AddReceived(sizes: seq<nat>)
      modifies this
      ensures State() == old(State()).(totRecByte := old(totRecByte) + Sum(sizes), totByteCount := old(totByteCount) + Sum(sizes))
    {
      var i := 0;
      while i < |sizes|
        invariant i <= |sizes|
        invariant State() == old(State()).(totRecByte := old(totRecByte) + Sum(sizes[..i]), totByteCount := old(totByteCount) + Sum(sizes[..i]))
      {
        SumPrefixStep(sizes, i);
        if sizes[i] > 0 {
          totRecByte := totRecByte + sizes[i];
          totByteCount := totByteCount + sizes[i];
        }
        i := i + 1;
      }
      assert sizes[..i] == sizes;
    }

    method ReceivePacket(sizes: seq<nat>, apps: seq<ParallelApp>, txAvailable: nat) returns (next: Next)
      requires State().Valid()
      modifies this
      ensures State() == ReceivePacketStep(old(State()), sizes, apps, txAvailable).state
      ensures next == ReceivePacketStep(old(State()), sizes, apps, txAvailable).next
    {
      AddReceived(sizes);
      ReceiveOutcome(old(State()), sizes, apps, txAvailable, State());
      if totRecByte < totExpByte {
        next := AwaitData;
      } else if repIt < |numRep| && numRep[repIt] > 0 {
        next := ScheduleTx(apps, txAvailable);
      } else {
        next := Idle;
      }
    }
  }
}
