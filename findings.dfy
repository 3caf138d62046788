/**
 * Two places where the source does not do what it evidently means to.
 *
 * 1. Loading the next expected byte total dereferences m_expByteIt with no
 *    end check.  The client does so each time a cycle of its own ends, the
 *    server each time its reply ends, so whenever a side has one more cycle
 *    of its own than its peer has (the client when the capture ends with a
 *    client cycle, the server after its last reply, a connection with no
 *    packets at all) the load reads past the end of the vector.  The model
 *    loads with Replay.NextExpected, which gives 0 (nothing more to receive)
 *    once the list is exhausted; LoadAsWritten is the load as written, and
 *    the lemmas below exhibit runs of the model that reach the load with the
 *    cursor at the end.
 *
 * 2. Install reads each side's packet count into a 16-bit variable, while
 *    PrintTraceFile writes the full size of the packet vector.  A count above
 *    65535 saturates the stream extraction at 65535, Install reads that many
 *    packets, and the next line, the side's next packet, fails the count
 *    pattern: a file the helper wrote itself is reported corrupted.  The
 *    model reads the full count (TraceFile.ParseSide, read back by
 *    RoundTrip.SideAt); ParseSideAsWritten is the read as written.
 *
 * 3. PrintTraceFile writes delays with the stream's default format: six
 *    significant digits, and exponent form ("4.5e-05") for a value below
 *    1e-4.  CalculatePacketDelay keeps any HTTP-request gap of at least one
 *    microsecond, so such delays occur, and the packet pattern Install uses
 *    has no room for an exponent: the file the helper wrote is reported
 *    corrupted.  The model writes every delay exactly (TraceFile.PacketText,
 *    read back by RoundTrip.PacketAt); PacketTextAsWritten is the writing as
 *    it is done.
 */
module Findings {
  import opened Wrappers
  import opened Utility
  import opened Sums
  import opened Replay
  import opened TraceFile
  import opened RoundTrip
  import opened ConnTable
  import Client
  import Server

  // ---------------------------------------------------------------------------
  // 1. The expected-byte cursor

  /** m_totExpByte = *(m_expByteIt++) as written: defined only while the cursor is before the end. */
  function LoadAsWritten(expByte: seq<nat>, it: nat): (r: Option<(nat, nat)>)
    requires it <= |expByte|
    ensures r.Some? <==> it < |expByte|
    ensures r.Some? ==> r.value == NextExpected(expByte, it)
  {
    if it < |expByte| then Some((expByte[it], it + 1)) else None
  }

  /** An undelayed packet of one byte, with no parallel entries. */
  function OneByte(): Packet
  {
    Packet(1, 0.0, [])
  }

  /**
   * A capture of the form client, server, client: the client has the cycles
   * [1, 1] and expects [5].  Its first cycle loads the 5; after the reply it
   * sends its second cycle and loads again with the cursor at the end of
   * [5].  The model closes the connection there.
   */
  lemma ClientLastCycleLoadsPastEnd()
    ensures var s0 := Client.SetupState(Client.ClientState(true, [], 0, [], 0, [], 0, 0, 0, 0), [1, 1], [5], [OneByte(), OneByte()]);
            var a := Client.ScheduleTxStep(s0, [], 10);
            && a.next == AwaitData && a.state.totExpByte == 5
            && a.state.expIt == |a.state.expByte|
            && LoadAsWritten(a.state.expByte, a.state.expIt) == None
            && var b := Client.ReceivePacketStep(a.state, [5], [], 10);
               b.state.reqIt == 1 && b.state.packetIt == 2 && b.state.totByteCount == 7 && b.next == Closed
  {
    ClientFirstCycle();
    ClientSecondCycle();
  }

  /** The client's first cycle: one byte sent, 5 expected, the expected-byte cursor at the end. */
  lemma ClientFirstCycle()
    ensures var s0 := Client.SetupState(Client.ClientState(true, [], 0, [], 0, [], 0, 0, 0, 0), [1, 1], [5], [OneByte(), OneByte()]);
            Client.ScheduleTxStep(s0, [], 10) == Step(Client.ClientState(true, [0, 1], 0, [5], 1, [OneByte(), OneByte()], 1, 0, 5, 1), AwaitData)
  {
    var s0 := Client.SetupState(Client.ClientState(true, [], 0, [], 0, [], 0, 0, 0, 0), [1, 1], [5], [OneByte(), OneByte()]);
    Client.SetupValid(Client.ClientState(true, [], 0, [], 0, [], 0, 0, 0, 0), [1, 1], [5], [OneByte(), OneByte()]);
    assert s0 == Client.ClientState(true, [1, 1], 0, [5], 0, [OneByte(), OneByte()], 0, 0, 0, 0);
    Client.SendsAtOnce(s0, [], 10);
    assert s0.numReq[0 := 0] == [0, 1];
    assert Client.SentOne(s0) == Client.ClientState(true, [0, 1], 0, [5], 0, [OneByte(), OneByte()], 1, 0, 0, 1);
  }

  /** The reply arrives, the second cycle is sent, and the load after it finds the list exhausted. */
  lemma ClientSecondCycle()
    ensures var a := Client.ClientState(true, [0, 1], 0, [5], 1, [OneByte(), OneByte()], 1, 0, 5, 1);
            var b := Client.ReceivePacketStep(a, [5], [], 10);
            b.state.reqIt == 1 && b.state.packetIt == 2 && b.state.totByteCount == 7 && b.next == Closed
  {
    var a := Client.ClientState(true, [0, 1], 0, [5], 1, [OneByte(), OneByte()], 1, 0, 5, 1);
    var s1 := a.(totRecByte := 5, totByteCount := 6);
    assert Sum([5]) == 5;
    assert Sum(a.numReq[0..]) == 1;
    Client.ReceiveOutcome(a, [5], [], 10, s1);
    var t := s1.(reqIt := 1);
    Client.SendsAtOnce(t, [], 10);
  }

  /**
   * A capture with one client cycle and one reply: the server has the reply
   * [1] and expects [5].  Setup loads the 5; once it has arrived the server
   * replies and loads again with the cursor at the end of [5].  The model
   * waits for 0 bytes there.
   */
  lemma ServerLastReplyLoadsPastEnd()
    ensures var s0 := Server.SetupState(Server.ServerState(true, [], 0, [], 0, [], 0, 0, 0, 0), [1], [5], [OneByte()]);
            && s0.totExpByte == 5 && s0.expIt == |s0.expByte|
            && LoadAsWritten(s0.expByte, s0.expIt) == None
            && var b := Server.ReceivePacketStep(s0, [5], [], 10);
               b.state.repIt == 1 && b.state.packetIt == 1 && b.state.totExpByte == 0 && b.next == AwaitData
  {
    var s0 := Server.SetupState(Server.ServerState(true, [], 0, [], 0, [], 0, 0, 0, 0), [1], [5], [OneByte()]);
    Server.SetupValid(Server.ServerState(true, [], 0, [], 0, [], 0, 0, 0, 0), [1], [5], [OneByte()]);
    var s1 := s0.(totRecByte := 5, totByteCount := 5);
    assert Sum([5]) == 5;
    Server.ReceiveOutcome(s0, [5], [], 10, s1);
    assert s1.packets[0..1] == [OneByte()];
    Server.ReplySendsAll(s1, [], 10);
  }

  /**
   * A connection with no packets: Setup turns both lists into [0] and loads
   * the 0, so HandleAccept goes straight to ScheduleTx, whose count is 0 and
   * which loads again with the cursor at the end of [0].
   */
  lemma ServerEmptyConnectionLoadsPastEnd()
    ensures var s0 := Server.SetupState(Server.ServerState(true, [], 0, [], 0, [], 0, 0, 0, 0), [], [], []);
            && s0.totExpByte == 0 && s0.numRep == [0]
            && LoadAsWritten(s0.expByte, s0.expIt) == None
            && Server.HandleAcceptStep(s0, [], 10).next == AwaitOnListener
  {
    Server.SetupValid(Server.ServerState(true, [], 0, [], 0, [], 0, 0, 0, 0), [], [], []);
  }

  // ---------------------------------------------------------------------------
  // 2. The 16-bit packet count

  /** The largest value of the uint16_t that Install reads a side's packet count into. */
  const MaxPacketCount: nat := 0xFFFF

  /** ParseSide as written: the packet count saturates at 65535 when it is read. */
  function ParseSideAsWritten(lines: seq<TraceLine>, pos: nat): (r: Result<(Side, nat), TraceError>)
    ensures r.Ok? ==> |r.value.0.packets| <= MaxPacketCount
  {
    var n :- ParseCount(lines, pos);
    var count := if n.0 > MaxPacketCount then MaxPacketCount else n.0;
    PacketsFromCount(lines, n.1, count, []);
    var ps :- ParsePacketsFrom(lines, n.1, count, []);
    var a :- ParseCountList(lines, ps.1);
    var b :- ParseCountList(lines, a.1);
    Ok((Side(ps.0, a.0, b.0), b.1))
  }

  /** The packets read number exactly the count given. */
  lemma {:induction false} PacketsFromCount(lines: seq<TraceLine>, pos: nat, k: nat, acc: seq<Packet>)
    ensures var r := ParsePacketsFrom(lines, pos, k, acc);
            r.Ok? ==> |r.value.0| == |acc| + k
    decreases k
  {
    if k > 0 {
      var p := ParsePacket(lines, pos);
      if p.Ok? {
        PacketsFromCount(lines, p.value.1, k - 1, acc + [p.value.0]);
      }
    }
  }

  /** The text of a run of packets, split after the first k. */
  lemma {:induction false} PacketsTextSplit(ps: seq<Packet>, k: nat)
    requires k <= |ps|
    ensures PacketsText(ps) == PacketsText(ps[..k]) + PacketsText(ps[k..])
    decreases k
  {
    if k > 0 {
      assert ps[..k][0] == ps[0] && ps[..k][1..] == ps[1..][..k - 1];
      assert ps[k..] == ps[1..][k - 1..];
      PacketsTextSplit(ps[1..], k - 1);
    } else {
      assert ps[..0] == [] && ps[0..] == ps;
    }
  }

  /** A packet line is not a count line, so CheckRegex for a count fails on it. */
  lemma CountFailsOnPacket(lines: seq<TraceLine>, pos: nat, p: Packet)
    requires At(lines, pos, PacketText(p))
    ensures ParseCountList(lines, pos) == Err(Corrupted)
  {
    assert lines[pos + 0] == PacketText(p)[0];
  }

  /**
   * Of a written run of more than 65535 packets, the first 65535 are read
   * back, and the line after them is the next packet's.
   */
  lemma PrefixReadsBack(lines: seq<TraceLine>, pos: nat, ps: seq<Packet>) returns (q: nat)
    requires At(lines, pos, PacketsText(ps)) && |ps| > MaxPacketCount
    requires forall i :: 0 <= i < |ps| ==> Writable(ps[i])
    ensures ParsePacketsFrom(lines, pos, MaxPacketCount, []) == Ok((ps[..MaxPacketCount], q))
    ensures At(lines, q, PacketText(ps[MaxPacketCount]))
  {
    PacketsTextSplit(ps, MaxPacketCount);
    q := pos + |PacketsText(ps[..MaxPacketCount])|;
    AtSplit(lines, pos, PacketsText(ps[..MaxPacketCount]), PacketsText(ps[MaxPacketCount..]));
    PacketsFromAt(lines, pos, ps[..MaxPacketCount], [], ps[..MaxPacketCount], q);
    var rest := ps[MaxPacketCount..];
    assert PacketsText(rest) == PacketText(rest[0]) + PacketsText(rest[1..]);
    AtSplit(lines, q, PacketText(rest[0]), PacketsText(rest[1..]));
  }

  /**
   * Where the two readings part: ParseSide reads back any side that
   * PrintTraceFile wrote (RoundTrip.SideAt), while the reading as written
   * reports every side of more than 65535 packets corrupted.
   */
  lemma LargeSideReadsCorrupted(lines: seq<TraceLine>, pos: nat, s: Side)
    requires At(lines, pos, SideText(s)) && SideWritable(s)
    requires |s.packets| > MaxPacketCount
    ensures ParseSideAsWritten(lines, pos) == Err(Corrupted)
  {
    var b := pos + 1 + |PacketsText(s.packets)|;
    SideLayout(lines, pos, s, b, b + |CountListText(s.perCycle)|);
    CountAt(lines, pos, |s.packets|);
    var q := PrefixReadsBack(lines, pos + 1, s.packets);
    CountFailsOnPacket(lines, q, s.packets[MaxPacketCount]);
    AsWrittenStops(lines, pos, |s.packets|, s.packets[..MaxPacketCount], q);
  }

  lemma AsWrittenStops(lines: seq<TraceLine>, pos: nat, n: nat, ps: seq<Packet>, q: nat)
    requires n > MaxPacketCount && ParseCount(lines, pos) == Ok((n, pos + 1))
    requires ParsePacketsFrom(lines, pos + 1, MaxPacketCount, []) == Ok((ps, q))
    requires ParseCountList(lines, q) == Err(Corrupted)
    ensures ParseSideAsWritten(lines, pos) == Err(Corrupted)
  {
  }

  /** Up to 65535 packets, the reading as written is ParseSide. */
  lemma SmallSideReadsAlike(lines: seq<TraceLine>, pos: nat)
    requires var n := ParseCount(lines, pos); n.Ok? ==> n.value.0 <= MaxPacketCount
    ensures ParseSideAsWritten(lines, pos) == ParseSide(lines, pos)
  {
  }

  // ---------------------------------------------------------------------------
  // 3. Delays written in exponent form

  /**
   * Whether the default stream format writes a non-negative value in
   * exponent form: a nonzero value below 1e-4, or one of 1e6 or more
   * (rounding to six digits at these boundaries is not modelled).
   */
  predicate ExponentForm(x: real)
  {
    x != 0.0 && (x < 0.0001 || x >= 1000000.0)
  }

  /** The packet line as written: in exponent form its text is no packet line the pattern accepts. */
  function PacketLineAsWritten(size: nat, delay: real): (line: TraceLine)
    ensures Matches(line, PacketPattern) <==> delay >= 0.0 && !ExponentForm(delay)
    ensures !ExponentForm(delay) ==> line == PacketLine(size, delay)
  {
    if ExponentForm(delay) then Other else PacketLine(size, delay)
  }

  /** A packet and its parallel list as PrintTraceFile writes them; it is PacketText unless the delay is in exponent form. */
  function PacketTextAsWritten(p: Packet): (lines: seq<TraceLine>)
    ensures |lines| == |PacketText(p)| && lines[1..] == PacketText(p)[1..]
    ensures lines == PacketText(p) <==> !ExponentForm(p.delay)
  {
    [PacketLineAsWritten(p.size, p.delay)] + PacketText(p)[1..]
  }

  /** A written packet whose delay is in exponent form does not read back: Install reports the file corrupted. */
  lemma ShortDelayReadsCorrupted(lines: seq<TraceLine>, pos: nat, p: Packet)
    requires At(lines, pos, PacketTextAsWritten(p)) && ExponentForm(p.delay)
    ensures ParsePacket(lines, pos) == Err(Corrupted)
  {
  }

  /**
   * An HTTP request 45 microseconds after its connection's previous packet
   * keeps a delay of 4.5e-05.  The model's file reads that packet back; the
   * file as written does not.
   */
  lemma HttpRequestDelayReadsCorrupted()
    ensures var p := Packet(100, CalculatePacketDelay(false, true, 1.0, 1.000045), []);
            p.delay == 0.000045 && ExponentForm(p.delay)
            && ParsePacket(PacketText(p), 0) == Ok((p, 2))
            && ParsePacket(PacketTextAsWritten(p), 0) == Err(Corrupted)
  {
  }
}
