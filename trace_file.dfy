/**
 * The trace file: what PrintTraceFile writes and what Install reads back.
 *
 * A file is a sequence of typed lines.  Each kind of line stands for the text
 * one of the helper's regular expressions accepts (a count, a connection
 * header, a packet, a parallel-connection entry); a line starting with '#'
 * is a Comment and anything else is Other.  Reading follows the helper's line
 * discipline: CheckRegex skips comments and accepts the next line only if it
 * has the expected kind, and a packet line is followed by its parallel list
 * exactly when its delay is positive.
 */
module TraceFile {
  import opened Wrappers
  import opened Utility
  import opened ConnTable

  datatype TraceLine =
    | Comment
    | Count(n: nat)
    | Connection(ipClient: Addr, portClient: Port, ipServer: Addr, portServer: Port, startTime: real)
    | PacketLine(size: nat, delay: real)
    | ParallelLine(srcPort: Port, dstPort: Port, byteCount: nat)
    | Other

  /** The expressions Install passes to CheckRegex. */
  datatype Pattern = CountPattern | ConnectionPattern | PacketPattern | ParallelPattern

  /** Whether a line matches a pattern; a packet's delay is written without a sign, so it is never negative. */
  predicate Matches(line: TraceLine, pattern: Pattern)
  {
    match pattern
    case CountPattern => line.Count?
    case ConnectionPattern => line.Connection?
    case PacketPattern => line.PacketLine? && line.delay >= 0.0
    case ParallelPattern => line.ParallelLine?
  }

  /** "Input trace file is corrupted!" and "No valid pcap or trace file.", both followed by exit(1). */
  datatype TraceError = Corrupted | NoTraceInput

  // ---------------------------------------------------------------------------
  // CheckRegex

  /** The position of the first line at or after pos that is not a comment. */
  function SkipComments(lines: seq<TraceLine>, pos: nat): (q: nat)
    ensures pos <= q
    ensures q == pos || q <= |lines|
    decreases |lines| - pos
  {
    if pos < |lines| && lines[pos].Comment? then SkipComments(lines, pos + 1) else pos
  }

  /** Only comments are skipped, and skipping stops at the first line that is not one. */
  lemma {:induction false} SkipCommentsMeans(lines: seq<TraceLine>, pos: nat)
    ensures var q := SkipComments(lines, pos);
            && (forall i :: pos <= i < q ==> lines[i].Comment?)
            && (q < |lines| ==> !lines[q].Comment?)
    decreases |lines| - pos
  {
    if pos < |lines| && lines[pos].Comment? {
      SkipCommentsMeans(lines, pos + 1);
    }
  }

  /**
   * What CheckRegex returns: the first line after any comments, with the
   * position after it, provided there is one and it matches.
   */
  function NextMatching(lines: seq<TraceLine>, pos: nat, pattern: Pattern): (r: Result<(TraceLine, nat), TraceError>)
  {
    var q := SkipComments(lines, pos);
    if q < |lines| && Matches(lines[q], pattern) then Ok((lines[q], q + 1)) else Err(Corrupted)
  }

  /**
   * CheckRegex succeeds exactly when some line at or after pos matches and
   * only comments precede it; it then returns that line and the position
   * after it.
   */
  lemma NextMatchingMeans(lines: seq<TraceLine>, pos: nat, pattern: Pattern)
    ensures var r := NextMatching(lines, pos, pattern);
            && (r.Ok? <==> exists q :: pos <= q < |lines| && (forall i :: pos <= i < q ==> lines[i].Comment?) && Matches(lines[q], pattern))
            && (r.Ok? ==> var q := r.value.1 - 1;
                          && pos <= q < |lines| && r.value.0 == lines[q] && Matches(lines[q], pattern)
                          && forall i :: pos <= i < q ==> lines[i].Comment?)
  {
    SkipCommentsMeans(lines, pos);
  }

  /** CheckRegex: read past the comment lines, then accept the next line or fail. */
  method CheckRegex(lines: seq<TraceLine>, pos: nat, pattern: Pattern) returns (r: Result<(TraceLine, nat), TraceError>)
    ensures r == NextMatching(lines, pos, pattern)
  {
    var q := pos;
    while q < |lines| && lines[q].Comment?
      invariant pos <= q
      invariant SkipComments(lines, q) == SkipComments(lines, pos)
      decreases |lines| - q
    {
      q := q + 1;
    }
    if q < |lines| && Matches(lines[q], pattern) {
      r := Ok((lines[q], q + 1));
    } else {
      r := Err(Corrupted);
    }
  }

  // ---------------------------------------------------------------------------
  // What Install reads, as functions of the lines

  /** A count line. */
  function ParseCount(lines: seq<TraceLine>, pos: nat): (r: Result<(nat, nat), TraceError>)
  {
    var m :- NextMatching(lines, pos, CountPattern);
    Ok((m.0.n, m.1))
  }

  /** k more count lines, appended to acc. */
  function ParseCountsFrom(lines: seq<TraceLine>, pos: nat, k: nat, acc: seq<nat>): (r: Result<(seq<nat>, nat), TraceError>)
    decreases k
  {
    if k == 0 then Ok((acc, pos))
    else
      var c :- ParseCount(lines, pos);
      ParseCountsFrom(lines, c.1, k - 1, acc + [c.0])
  }

  /** A count n followed by n count lines (numReq, numRep or expByte). */
  function ParseCountList(lines: seq<TraceLine>, pos: nat): (r: Result<(seq<nat>, nat), TraceError>)
  {
    var n :- ParseCount(lines, pos);
    ParseCountsFrom(lines, n.1, n.0, [])
  }

  /** k more parallel-connection lines, appended to acc. */
  function ParseParallelFrom(lines: seq<TraceLine>, pos: nat, k: nat, acc: seq<ParallelConnectionInfo>): (r: Result<(seq<ParallelConnectionInfo>, nat), TraceError>)
    decreases k
  {
    if k == 0 then Ok((acc, pos))
    else
      var m :- NextMatching(lines, pos, ParallelPattern);
      ParseParallelFrom(lines, m.1, k - 1, acc + [ParallelConnectionInfo(m.0.srcPort, m.0.dstPort, m.0.byteCount)])
  }

  /** A packet line, then, only when its delay is positive, a count and that many parallel lines. */
  function ParsePacket(lines: seq<TraceLine>, pos: nat): (r: Result<(Packet, nat), TraceError>)
    ensures r.Ok? ==> r.value.0.delay >= 0.0 && (r.value.0.delay <= 0.0 ==> r.value.0.parallelConnList == [])
  {
    var m :- NextMatching(lines, pos, PacketPattern);
    if m.0.delay > 0.0 then
      var n :- ParseCount(lines, m.1);
      var list :- ParseParallelFrom(lines, n.1, n.0, []);
      Ok((Packet(m.0.size, m.0.delay, list.0), list.1))
    else
      Ok((Packet(m.0.size, m.0.delay, []), m.1))
  }

  /** k more packets, appended to acc. */
  function ParsePacketsFrom(lines: seq<TraceLine>, pos: nat, k: nat, acc: seq<Packet>): (r: Result<(seq<Packet>, nat), TraceError>)
    decreases k
  {
    if k == 0 then Ok((acc, pos))
    else
      var p :- ParsePacket(lines, pos);
      ParsePacketsFrom(lines, p.1, k - 1, acc + [p.0])
  }

  /**
   * What one application of a pair is set up with: its packets, the packets
   * it sends per cycle, and the bytes it expects per cycle of its peer.
   */
  datatype Side = Side(packets: seq<Packet>, perCycle: seq<nat>, expByte: seq<nat>)

  /** A count of packets, the packets, then two count lists. */
  function ParseSide(lines: seq<TraceLine>, pos: nat): (r: Result<(Side, nat), TraceError>)
  {
    var n :- ParseCount(lines, pos);
    var ps :- ParsePacketsFrom(lines, n.1, n.0, []);
    var a :- ParseCountList(lines, ps.1);
    var b :- ParseCountList(lines, a.1);
    Ok((Side(ps.0, a.0, b.0), b.1))
  }

  /** One client/server pair that Install creates. */
  datatype ConnectionSetup = ConnectionSetup(id: ConnId, startTime: real, port: Port, client: Side, server: Side)

  /** The port of the j-th connection: m_portNumber + j, truncated to 16 bits. */
  function ConnectionPort(base: Port, j: nat): (port: Port)
    ensures base + j < 0x1_0000 ==> port == base + j
  {
    (base + j) % 0x1_0000
  }

  /** Fewer than 65536 consecutive connections never share a port. */
  lemma ConnectionPortsDistinct(base: Port, i: nat, j: nat)
    requires i < j < i + 0x1_0000
    ensures ConnectionPort(base, i) != ConnectionPort(base, j)
  {
    var a, b := base + i, base + j;
    assert a == (a / 0x1_0000) * 0x1_0000 + a % 0x1_0000;
    assert b == (b / 0x1_0000) * 0x1_0000 + b % 0x1_0000;
  }

  /** A connection header line, the client side, then the server side. */
  function ParseConnection(lines: seq<TraceLine>, pos: nat, port: Port): (r: Result<(ConnectionSetup, nat), TraceError>)
    ensures r.Ok? ==> r.value.0.port == port
  {
    var m :- NextMatching(lines, pos, ConnectionPattern);
    var id := ConnId(m.0.ipClient, m.0.portClient, m.0.ipServer, m.0.portServer);
    var c :- ParseSide(lines, m.1);
    var s :- ParseSide(lines, c.1);
    Ok((ConnectionSetup(id, m.0.startTime, port, c.0, s.0), s.1))
  }

  /** k more connections; the next one is number |acc|. */
  function ParseConnectionsFrom(lines: seq<TraceLine>, pos: nat, base: Port, k: nat, acc: seq<ConnectionSetup>): (r: Result<(seq<ConnectionSetup>, nat), TraceError>)
    decreases k, 1
  {
    if k == 0 then Ok((acc, pos)) else ParseNextConnection(lines, pos, base, k, acc)
  }

  /** The first of k > 0 connections, then the others. */
  function ParseNextConnection(lines: seq<TraceLine>, pos: nat, base: Port, k: nat, acc: seq<ConnectionSetup>): (r: Result<(seq<ConnectionSetup>, nat), TraceError>)
    requires k > 0
    decreases k, 0
  {
    match ParseConnection(lines, pos, ConnectionPort(base, |acc|))
    case Err(e) => Err(e)
    case Ok(c) => ParseConnectionsFrom(lines, c.1, base, k - 1, acc + [c.0])
  }

  /** Reading k > 0 connections is reading the first, then k - 1 more. */
  lemma ParseConnectionsFromStep(lines: seq<TraceLine>, pos: nat, base: Port, k: nat, acc: seq<ConnectionSetup>, c: ConnectionSetup, next: nat)
    requires k > 0
    requires ParseConnection(lines, pos, ConnectionPort(base, |acc|)) == Ok((c, next))
    ensures ParseConnectionsFrom(lines, pos, base, k, acc) == ParseConnectionsFrom(lines, next, base, k - 1, acc + [c])
  {
  }

  /** A connection that cannot be read fails the whole reading. */
  lemma ParseConnectionsFromFails(lines: seq<TraceLine>, pos: nat, base: Port, k: nat, acc: seq<ConnectionSetup>, e: TraceError)
    requires k > 0
    requires ParseConnection(lines, pos, ConnectionPort(base, |acc|)) == Err(e)
    ensures ParseConnectionsFrom(lines, pos, base, k, acc) == Err(e)
  {
  }

  /** The whole file: the number of connections, then each connection. */
  function ParseTrace(lines: seq<TraceLine>, base: Port): Result<seq<ConnectionSetup>, TraceError>
  {
    var n :- ParseCount(lines, 0);
    var cs :- ParseConnectionsFrom(lines, n.1, base, n.0, []);
    Ok(cs.0)
  }

  // ---------------------------------------------------------------------------
  // Reading, as Install does it

  method ReadCount(lines: seq<TraceLine>, pos: nat) returns (r: Result<(nat, nat), TraceError>)
    ensures r == ParseCount(lines, pos)
  {
    var m := CheckRegex(lines, pos, CountPattern);
    if m.Err? {
      return Err(m.error);
    }
    r := Ok((m.value.0.n, m.value.1));
  }

  method ReadCountList(lines: seq<TraceLine>, pos: nat) returns (r: Result<(seq<nat>, nat), TraceError>)
    ensures r == ParseCountList(lines, pos)
  {
    var n := ReadCount(lines, pos);
    if n.Err? {
      return Err(n.error);
    }
    var counts: seq<nat> := [];
    var p: nat := n.value.1;
    var k := 0;
    while k < n.value.0
      invariant k <= n.value.0
      invariant ParseCountList(lines, pos) == ParseCountsFrom(lines, p, n.value.0 - k, counts)
    {
      var c := ReadCount(lines, p);
      if c.Err? {
        return Err(c.error);
      }
      counts := counts + [c.value.0];
      p := c.value.1;
      k := k + 1;
    }
    r := Ok((counts, p));
  }

  /** The n parallel lines after a delayed packet, added to the packet one by one. */
  method ReadParallelList(lines: seq<TraceLine>, pos: nat, n: nat, packet: TraceReplayPacket) returns (r: Result<nat, TraceError>)
    requires packet.parallelConnList == []
    modifies packet
    ensures var parsed := ParseParallelFrom(lines, pos, n, []);
            && (r.Ok? <==> parsed.Ok?)
            && (r.Ok? ==> r.value == parsed.value.1 && packet.parallelConnList == parsed.value.0)
            && (r.Err? ==> r.error == parsed.error)
    ensures packet.size == old(packet.size) && packet.delay == old(packet.delay)
  {
    var p: nat := pos;
    var i := 0;
    while i < n
      invariant i <= n
      invariant packet.size == old(packet.size) && packet.delay == old(packet.delay)
      invariant ParseParallelFrom(lines, pos, n, []) == ParseParallelFrom(lines, p, n - i, packet.parallelConnList)
    {
      var e := CheckRegex(lines, p, ParallelPattern);
      if e.Err? {
        return Err(e.error);
      }
      packet.AddParallelConnection(e.value.0.srcPort, e.value.0.dstPort, e.value.0.byteCount);
      p := e.value.1;
      i := i + 1;
    }
    r := Ok(p);
  }

  /** One packet, built as a TraceReplayPacket the way Install builds it. */
  method ReadPacket(lines: seq<TraceLine>, pos: nat) returns (r: Result<(Packet, nat), TraceError>)
    ensures r == ParsePacket(lines, pos)
  {
    var m := CheckRegex(lines, pos, PacketPattern);
    if m.Err? {
      return Err(m.error);
    }
    var packet := new TraceReplayPacket();
    var p: nat := m.value.1;
    if m.value.0.delay > 0.0 {
      var n := ReadCount(lines, p);
      if n.Err? {
        return Err(n.error);
      }
      var list := ReadParallelList(lines, n.value.1, n.value.0, packet);
      if list.Err? {
        return Err(list.error);
      }
      p := list.value;
    }
    packet.SetSize(m.value.0.size);
    packet.SetDelay(m.value.0.delay);
    r := Ok((packet.Value(), p));
  }

  method ReadSide(lines: seq<TraceLine>, pos: nat) returns (r: Result<(Side, nat), TraceError>)
    ensures r == ParseSide(lines, pos)
  {
    var n := ReadCount(lines, pos);
    if n.Err? {
      return Err(n.error);
    }
    var packetList: seq<Packet> := [];
    var p: nat := n.value.1;
    var k := 0;
    while k < n.value.0
      invariant k <= n.value.0
      invariant ParsePacketsFrom(lines, n.value.1, n.value.0, []) == ParsePacketsFrom(lines, p, n.value.0 - k, packetList)
    {
      var packet := ReadPacket(lines, p);
      if packet.Err? {
        return Err(packet.error);
      }
      packetList := packetList + [packet.value.0];
      p := packet.value.1;
      k := k + 1;
    }
    var a := ReadCountList(lines, p);
    if a.Err? {
      return Err(a.error);
    }
    var b := ReadCountList(lines, a.value.1);
    if b.Err? {
      return Err(b.error);
    }
    r := Ok((Side(packetList, a.value.0, b.value.0), b.value.1));
  }

  method ReadConnection(lines: seq<TraceLine>, pos: nat, port: Port) returns (r: Result<(ConnectionSetup, nat), TraceError>)
    ensures r == ParseConnection(lines, pos, port)
  {
    var m := CheckRegex(lines, pos, ConnectionPattern);
    if m.Err? {
      return Err(m.error);
    }
    var id := ConnId(m.value.0.ipClient, m.value.0.portClient, m.value.0.ipServer, m.value.0.portServer);
    var client := ReadSide(lines, m.value.1);
    if client.Err? {
      return Err(client.error);
    }
    var server := ReadSide(lines, client.value.1);
    if server.Err? {
      return Err(server.error);
    }
    r := Ok((ConnectionSetup(id, m.value.0.startTime, port, client.value.0, server.value.0), server.value.1));
  }

  /** One more connection, the next after those in acc. */
  method ReadNextConnection(lines: seq<TraceLine>, pos: nat, base: Port, k: nat, acc: seq<ConnectionSetup>, ghost goal: Result<(seq<ConnectionSetup>, nat), TraceError>)
    returns (c: Result<(ConnectionSetup, nat), TraceError>)
    requires k > 0
    requires ParseConnectionsFrom(lines, pos, base, k, acc) == goal
    ensures c.Err? ==> goal == Err(c.error)
    ensures c.Ok? ==> ParseConnectionsFrom(lines, c.value.1, base, k - 1, acc + [c.value.0]) == goal
  {
    c := ReadConnection(lines, pos, ConnectionPort(base, |acc|));
    if c.Err? {
      ParseConnectionsFromFails(lines, pos, base, k, acc, c.error);
    } else {
      ParseConnectionsFromStep(lines, pos, base, k, acc, c.value.0, c.value.1);
    }
  }

  /** k connections from pos, numbered from 0. */
  method ReadConnections(lines: seq<TraceLine>, pos: nat, base: Port, k: nat) returns (r: Result<(seq<ConnectionSetup>, nat), TraceError>)
    ensures r == ParseConnectionsFrom(lines, pos, base, k, [])
  {
    var setups: seq<ConnectionSetup> := [];
    var p: nat := pos;
    var left := k;
    ghost var goal := ParseConnectionsFrom(lines, pos, base, k, []);
    while left > 0
      invariant ParseConnectionsFrom(lines, p, base, left, setups) == goal
    {
      var c := ReadNextConnection(lines, p, base, left, setups, goal);
      if c.Err? {
        return Err(c.error);
      }
      setups := setups + [c.value.0];
      p := c.value.1;
      left := left - 1;
    }
    r := Ok((setups, p));
  }

  /** The reading half of Install: the number of connections, then every connection. */
  method ReadTrace(lines: seq<TraceLine>, base: Port) returns (r: Result<seq<ConnectionSetup>, TraceError>)
    ensures r == ParseTrace(lines, base)
  {
    var n := ReadCount(lines, 0);
    if n.Err? {
      return Err(n.error);
    }
    var cs := ReadConnections(lines, n.value.1, base, n.value.0);
    if cs.Err? {
      return Err(cs.error);
    }
    r := Ok(cs.value.0);
  }

  // ---------------------------------------------------------------------------
  // What PrintTraceFile writes

  /** The fixed block of comment lines at the top of the file. */
  const HeaderLength: nat := 35

  function Header(): (lines: seq<TraceLine>)
    ensures |lines| == HeaderLength && forall i :: 0 <= i < |lines| ==> lines[i].Comment?
  {
    seq(HeaderLength, _ => Comment)
  }

  /** One count line per entry, in order. */
  function CountLines(xs: seq<nat>): (lines: seq<TraceLine>)
    ensures |lines| == |xs| && forall i :: 0 <= i < |xs| ==> lines[i] == Count(xs[i])
  {
    if xs == [] then [] else [Count(xs[0])] + CountLines(xs[1..])
  }

  function CountListText(xs: seq<nat>): seq<TraceLine>
  {
    [Count(|xs|)] + CountLines(xs)
  }

  /** One parallel line per entry, in order. */
  function ParallelLines(list: seq<ParallelConnectionInfo>): (lines: seq<TraceLine>)
    ensures |lines| == |list|
    ensures forall i :: 0 <= i < |list| ==> lines[i] == ParallelLine(list[i].srcPort, list[i].dstPort, list[i].byteCount)
  {
    if list == [] then []
    else [ParallelLine(list[0].srcPort, list[0].dstPort, list[0].byteCount)] + ParallelLines(list[1..])
  }

  /** A packet line, and its parallel list exactly when the delay is positive. */
  function PacketText(p: Packet): seq<TraceLine>
  {
    [PacketLine(p.size, p.delay)]
      + if p.delay > 0.0 then [Count(|p.parallelConnList|)] + ParallelLines(p.parallelConnList) else []
  }

  function PacketsText(ps: seq<Packet>): seq<TraceLine>
  {
    if ps == [] then [] else PacketText(ps[0]) + PacketsText(ps[1..])
  }

  function SideText(s: Side): seq<TraceLine>
  {
    [Count(|s.packets|)] + PacketsText(s.packets) + CountListText(s.perCycle) + CountListText(s.expByte)
  }

  /** The client sends the client packets in numReq cycles and waits for the server's bytes. */
  function ClientSide(c: ConnInfo): Side
  {
    Side(c.clientPackets, c.numReq, c.expByteServer)
  }

  /** The server sends the server packets in numRep cycles and waits for the client's bytes. */
  function ServerSide(c: ConnInfo): Side
  {
    Side(c.serverPackets, c.numRep, c.expByteClient)
  }

  function ConnectionText(k: ConnId, c: ConnInfo): seq<TraceLine>
  {
    [Connection(k.ipClient, k.portClient, k.ipServer, k.portServer, c.startTime)]
      + SideText(ClientSide(c)) + SideText(ServerSide(c))
  }

  function ConnectionsText(ks: seq<ConnId>, m: map<ConnId, ConnInfo>): seq<TraceLine>
    requires forall k :: k in ks ==> k in m
  {
    if ks == [] then [] else ConnectionText(ks[0], m[ks[0]]) + ConnectionsText(ks[1..], m)
  }

  /** The file written for a table, connections in map order. */
  ghost function TraceText(m: map<ConnId, ConnInfo>): seq<TraceLine>
  {
    Header() + [Count(|m.Keys|)] + ConnectionsText(SortedKeys(m.Keys), m)
  }

  // ---------------------------------------------------------------------------
  // Writing, as PrintTraceFile does it

  method WriteCountList(xs: seq<nat>) returns (out: seq<TraceLine>)
    ensures out == CountListText(xs)
  {
    out := [Count(|xs|)];
    var i := 0;
    while i < |xs|
      invariant i <= |xs|
      invariant out + CountLines(xs[i..]) == CountListText(xs)
    {
      assert xs[i..][1..] == xs[i + 1..];
      out := out + [Count(xs[i])];
      i := i + 1;
    }
  }

  method WritePacket(p: Packet) returns (out: seq<TraceLine>)
    ensures out == PacketText(p)
  {
    out := [PacketLine(p.size, p.delay)];
    if p.delay > 0.0 {
      var list := p.parallelConnList;
      out := out + [Count(|list|)];
      var j := 0;
      while j < |list|
        invariant j <= |list|
        invariant out + ParallelLines(list[j..]) == PacketText(p)
      {
        assert list[j..][1..] == list[j + 1..];
        out := out + [ParallelLine(list[j].srcPort, list[j].dstPort, list[j].byteCount)];
        j := j + 1;
      }
    }
  }

  method WriteSide(s: Side) returns (out: seq<TraceLine>)
    ensures out == SideText(s)
  {
    out := [Count(|s.packets|)];
    var i := 0;
    while i < |s.packets|
      invariant i <= |s.packets|
      invariant out + PacketsText(s.packets[i..]) == [Count(|s.packets|)] + PacketsText(s.packets)
    {
      assert s.packets[i..][1..] == s.packets[i + 1..];
      var lines := WritePacket(s.packets[i]);
      out := out + lines;
      i := i + 1;
    }
    var a := WriteCountList(s.perCycle);
    var b := WriteCountList(s.expByte);
    out := out + a + b;
  }

  method WriteConnection(k: ConnId, c: ConnInfo) returns (out: seq<TraceLine>)
    ensures out == ConnectionText(k, c)
  {
    out := [Connection(k.ipClient, k.portClient, k.ipServer, k.portServer, c.startTime)];
    var client := WriteSide(ClientSide(c));
    var server := WriteSide(ServerSide(c));
    out := out + client + server;
  }
}
