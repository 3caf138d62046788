/**
 * The trace file PrintTraceFile writes is the one Install reads back: for a
 * well-formed connection table, reading the written lines yields, connection
 * by connection in map order, exactly the packet lists and cycle lists the
 * table holds, and each client/server pair is set up so that every side
 * waits for exactly the bytes its peer sends.
 *
 * Each round trip is split in three: where the pieces of the text lie (no
 * parsing involved), how the reader combines what it reads of the pieces (no
 * text involved), and the lemma joining the two.  Positions are passed
 * explicitly so that each step is stated at the exact position it reads.
 */
module RoundTrip {
  import opened Wrappers
  import opened Utility
  import opened Sums
  import opened ConnTable
  import opened TraceFile

  /** The lines xs occur in lines at position pos. */
  predicate At(lines: seq<TraceLine>, pos: nat, xs: seq<TraceLine>)
  {
    pos + |xs| <= |lines| && forall i :: 0 <= i < |xs| ==> lines[pos + i] == xs[i]
  }

  lemma AtSplit(lines: seq<TraceLine>, pos: nat, xs: seq<TraceLine>, ys: seq<TraceLine>)
    requires At(lines, pos, xs + ys)
    ensures At(lines, pos, xs) && At(lines, pos + |xs|, ys)
  {
    forall i | 0 <= i < |xs|
      ensures lines[pos + i] == xs[i]
    {
      assert (xs + ys)[i] == xs[i];
    }
    forall i | 0 <= i < |ys|
      ensures lines[pos + |xs| + i] == ys[i]
    {
      assert (xs + ys)[|xs| + i] == ys[i];
    }
  }

  /** The two halves of a text, with the position where the second starts. */
  lemma AtConcat(lines: seq<TraceLine>, pos: nat, whole: seq<TraceLine>, xs: seq<TraceLine>, ys: seq<TraceLine>, next: nat)
    requires whole == xs + ys && At(lines, pos, whole) && next == pos + |xs|
    ensures At(lines, pos, xs) && At(lines, next, ys) && pos + |whole| == next + |ys|
  {
    AtSplit(lines, pos, xs, ys);
  }

  lemma NextMatchingAt(lines: seq<TraceLine>, pos: nat, line: TraceLine, pattern: Pattern)
    requires At(lines, pos, [line]) && Matches(line, pattern)
    ensures NextMatching(lines, pos, pattern) == Ok((line, pos + 1))
  {
    assert lines[pos + 0] == [line][0];
  }

  lemma CountAt(lines: seq<TraceLine>, pos: nat, n: nat)
    requires At(lines, pos, [Count(n)])
    ensures ParseCount(lines, pos) == Ok((n, pos + 1))
  {
    NextMatchingAt(lines, pos, Count(n), CountPattern);
  }

  // ---------------------------------------------------------------------------
  // Count lists

  lemma CountLinesLayout(lines: seq<TraceLine>, pos: nat, xs: seq<nat>)
    requires xs != [] && At(lines, pos, CountLines(xs))
    ensures At(lines, pos, [Count(xs[0])]) && At(lines, pos + 1, CountLines(xs[1..]))
  {
    assert CountLines(xs) == [Count(xs[0])] + CountLines(xs[1..]);
    AtSplit(lines, pos, [Count(xs[0])], CountLines(xs[1..]));
  }

  lemma CountsFromStep(lines: seq<TraceLine>, pos: nat, k: nat, acc: seq<nat>, n: nat)
    requires k > 0 && ParseCount(lines, pos) == Ok((n, pos + 1))
    ensures ParseCountsFrom(lines, pos, k, acc) == ParseCountsFrom(lines, pos + 1, k - 1, acc + [n])
  {
  }

  lemma {:induction false} CountsFromAt(lines: seq<TraceLine>, pos: nat, xs: seq<nat>, acc: seq<nat>, result: seq<nat>)
    requires At(lines, pos, CountLines(xs)) && result == acc + xs
    ensures ParseCountsFrom(lines, pos, |xs|, acc) == Ok((result, pos + |xs|))
    decreases |xs|
  {
    if xs == [] {
      assert result == acc;
    } else {
      CountLinesLayout(lines, pos, xs);
      CountAt(lines, pos, xs[0]);
      CountsFromStep(lines, pos, |xs|, acc, xs[0]);
      assert result == acc + [xs[0]] + xs[1..];
      CountsFromAt(lines, pos + 1, xs[1..], acc + [xs[0]], result);
    }
  }

  lemma CountListStep(lines: seq<TraceLine>, pos: nat, n: nat, r: Result<(seq<nat>, nat), TraceError>)
    requires ParseCount(lines, pos) == Ok((n, pos + 1))
    requires ParseCountsFrom(lines, pos + 1, n, []) == r
    ensures ParseCountList(lines, pos) == r
  {
  }

  /** A written count list reads back as the same list. */
  lemma CountListAt(lines: seq<TraceLine>, pos: nat, xs: seq<nat>, end: nat)
    requires At(lines, pos, CountListText(xs)) && end == pos + |CountListText(xs)|
    ensures ParseCountList(lines, pos) == Ok((xs, end))
  {
    AtSplit(lines, pos, [Count(|xs|)], CountLines(xs));
    CountAt(lines, pos, |xs|);
    CountsFromAt(lines, pos + 1, xs, [], xs);
    CountListStep(lines, pos, |xs|, Ok((xs, end)));
  }

  // ---------------------------------------------------------------------------
  // Packets

  lemma ParallelLinesLayout(lines: seq<TraceLine>, pos: nat, list: seq<ParallelConnectionInfo>)
    requires list != [] && At(lines, pos, ParallelLines(list))
    ensures At(lines, pos, [ParallelLine(list[0].srcPort, list[0].dstPort, list[0].byteCount)])
    ensures At(lines, pos + 1, ParallelLines(list[1..]))
  {
    var line := ParallelLine(list[0].srcPort, list[0].dstPort, list[0].byteCount);
    assert ParallelLines(list) == [line] + ParallelLines(list[1..]);
    AtSplit(lines, pos, [line], ParallelLines(list[1..]));
  }

  lemma ParallelFromStep(lines: seq<TraceLine>, pos: nat, k: nat, acc: seq<ParallelConnectionInfo>, e: ParallelConnectionInfo)
    requires k > 0
    requires NextMatching(lines, pos, ParallelPattern) == Ok((ParallelLine(e.srcPort, e.dstPort, e.byteCount), pos + 1))
    ensures ParseParallelFrom(lines, pos, k, acc) == ParseParallelFrom(lines, pos + 1, k - 1, acc + [e])
  {
  }

  lemma {:induction false} ParallelFromAt(lines: seq<TraceLine>, pos: nat, list: seq<ParallelConnectionInfo>, acc: seq<ParallelConnectionInfo>, result: seq<ParallelConnectionInfo>)
    requires At(lines, pos, ParallelLines(list)) && result == acc + list
    ensures ParseParallelFrom(lines, pos, |list|, acc) == Ok((result, pos + |list|))
    decreases |list|
  {
    if list == [] {
      assert result == acc;
    } else {
      ParallelLinesLayout(lines, pos, list);
      NextMatchingAt(lines, pos, ParallelLine(list[0].srcPort, list[0].dstPort, list[0].byteCount), ParallelPattern);
      ParallelFromStep(lines, pos, |list|, acc, list[0]);
      assert result == acc + [list[0]] + list[1..];
      ParallelFromAt(lines, pos + 1, list[1..], acc + [list[0]], result);
    }
  }

  /** What the writer needs of a packet for it to read back unchanged. */
  predicate Writable(p: Packet)
  {
    p.delay >= 0.0 && (p.delay <= 0.0 ==> p.parallelConnList == [])
  }

  lemma PacketLayout(lines: seq<TraceLine>, pos: nat, p: Packet)
    requires At(lines, pos, PacketText(p))
    ensures At(lines, pos, [PacketLine(p.size, p.delay)])
    ensures p.delay > 0.0 ==> At(lines, pos + 1, [Count(|p.parallelConnList|)]) && At(lines, pos + 2, ParallelLines(p.parallelConnList))
    ensures |PacketText(p)| == if p.delay > 0.0 then 2 + |p.parallelConnList| else 1
  {
    var head := [PacketLine(p.size, p.delay)];
    if p.delay > 0.0 {
      var list := p.parallelConnList;
      assert PacketText(p) == head + ([Count(|list|)] + ParallelLines(list));
      AtSplit(lines, pos, head, [Count(|list|)] + ParallelLines(list));
      AtSplit(lines, pos + 1, [Count(|list|)], ParallelLines(list));
    } else {
      assert PacketText(p) == head;
    }
  }

  lemma PacketSteps(lines: seq<TraceLine>, pos: nat, p: Packet, end: nat)
    requires Writable(p)
    requires NextMatching(lines, pos, PacketPattern) == Ok((PacketLine(p.size, p.delay), pos + 1))
    requires p.delay > 0.0 ==> ParseCount(lines, pos + 1) == Ok((|p.parallelConnList|, pos + 2))
    requires p.delay > 0.0 ==> ParseParallelFrom(lines, pos + 2, |p.parallelConnList|, []) == Ok((p.parallelConnList, end))
    requires p.delay <= 0.0 ==> end == pos + 1
    ensures ParsePacket(lines, pos) == Ok((p, end))
  {
  }

  /** A written packet reads back as the same packet, parallel list included. */
  lemma PacketAt(lines: seq<TraceLine>, pos: nat, p: Packet, end: nat)
    requires At(lines, pos, PacketText(p)) && Writable(p) && end == pos + |PacketText(p)|
    ensures ParsePacket(lines, pos) == Ok((p, end))
  {
    PacketLayout(lines, pos, p);
    NextMatchingAt(lines, pos, PacketLine(p.size, p.delay), PacketPattern);
    if p.delay > 0.0 {
      CountAt(lines, pos + 1, |p.parallelConnList|);
      ParallelFromAt(lines, pos + 2, p.parallelConnList, [], p.parallelConnList);
    }
    PacketSteps(lines, pos, p, end);
  }

  lemma PacketsLayout(lines: seq<TraceLine>, pos: nat, ps: seq<Packet>, next: nat)
    requires ps != [] && At(lines, pos, PacketsText(ps)) && next == pos + |PacketText(ps[0])|
    ensures At(lines, pos, PacketText(ps[0])) && At(lines, next, PacketsText(ps[1..]))
    ensures pos + |PacketsText(ps)| == next + |PacketsText(ps[1..])|
  {
    AtConcat(lines, pos, PacketsText(ps), PacketText(ps[0]), PacketsText(ps[1..]), next);
  }

  lemma PacketsFromStep(lines: seq<TraceLine>, pos: nat, k: nat, acc: seq<Packet>, p: Packet, next: nat)
    requires k > 0 && ParsePacket(lines, pos) == Ok((p, next))
    ensures ParsePacketsFrom(lines, pos, k, acc) == ParsePacketsFrom(lines, next, k - 1, acc + [p])
  {
  }

  lemma {:induction false} PacketsFromAt(lines: seq<TraceLine>, pos: nat, ps: seq<Packet>, acc: seq<Packet>, result: seq<Packet>, end: nat)
    requires At(lines, pos, PacketsText(ps)) && result == acc + ps && end == pos + |PacketsText(ps)|
    requires forall i :: 0 <= i < |ps| ==> Writable(ps[i])
    ensures ParsePacketsFrom(lines, pos, |ps|, acc) == Ok((result, end))
    decreases |ps|
  {
    if ps == [] {
      assert result == acc;
    } else {
      var next := pos + |PacketText(ps[0])|;
      PacketsLayout(lines, pos, ps, next);
      PacketAt(lines, pos, ps[0], next);
      PacketsFromStep(lines, pos, |ps|, acc, ps[0], next);
      assert result == acc + [ps[0]] + ps[1..];
      PacketsFromAt(lines, next, ps[1..], acc + [ps[0]], result, end);
    }
  }

  // ---------------------------------------------------------------------------
  // Sides and connections

  predicate SideWritable(s: Side)
  {
    forall i :: 0 <= i < |s.packets| ==> Writable(s.packets[i])
  }

  lemma SideLayout(lines: seq<TraceLine>, pos: nat, s: Side, b: nat, c: nat)
    requires At(lines, pos, SideText(s))
    requires b == pos + 1 + |PacketsText(s.packets)| && c == b + |CountListText(s.perCycle)|
    ensures At(lines, pos, [Count(|s.packets|)])
    ensures At(lines, pos + 1, PacketsText(s.packets))
    ensures At(lines, b, CountListText(s.perCycle))
    ensures At(lines, c, CountListText(s.expByte))
    ensures pos + |SideText(s)| == c + |CountListText(s.expByte)|
  {
    var a, t := [Count(|s.packets|)], PacketsText(s.packets);
    var u, v := CountListText(s.perCycle), CountListText(s.expByte);
    assert SideText(s) == a + t + u + v;
    AtSplit(lines, pos, a + t + u, v);
    AtSplit(lines, pos, a + t, u);
    AtSplit(lines, pos, a, t);
  }

  lemma SideSteps(lines: seq<TraceLine>, pos: nat, s: Side, b: nat, c: nat, end: nat)
    requires ParseCount(lines, pos) == Ok((|s.packets|, pos + 1))
    requires ParsePacketsFrom(lines, pos + 1, |s.packets|, []) == Ok((s.packets, b))
    requires ParseCountList(lines, b) == Ok((s.perCycle, c))
    requires ParseCountList(lines, c) == Ok((s.expByte, end))
    ensures ParseSide(lines, pos) == Ok((s, end))
  {
  }

  /** A written side reads back as the same side. */
  lemma SideAt(lines: seq<TraceLine>, pos: nat, s: Side, end: nat)
    requires At(lines, pos, SideText(s)) && SideWritable(s) && end == pos + |SideText(s)|
    ensures ParseSide(lines, pos) == Ok((s, end))
  {
    var b := pos + 1 + |PacketsText(s.packets)|;
    var c := b + |CountListText(s.perCycle)|;
    SideLayout(lines, pos, s, b, c);
    CountAt(lines, pos, |s.packets|);
    PacketsFromAt(lines, pos + 1, s.packets, [], s.packets, b);
    CountListAt(lines, b, s.perCycle, c);
    CountListAt(lines, c, s.expByte, end);
    SideSteps(lines, pos, s, b, c, end);
  }

  /** The pair Install creates for connection k of the table, given its port. */
  function SetupFor(k: ConnId, c: ConnInfo, port: Port): ConnectionSetup
  {
    ConnectionSetup(k, c.startTime, port, ClientSide(c), ServerSide(c))
  }

  predicate InfoWritable(c: ConnInfo)
  {
    SideWritable(ClientSide(c)) && SideWritable(ServerSide(c))
  }

  lemma ConnectionLayout(lines: seq<TraceLine>, pos: nat, k: ConnId, c: ConnInfo, mid: nat)
    requires At(lines, pos, ConnectionText(k, c)) && mid == pos + 1 + |SideText(ClientSide(c))|
    ensures At(lines, pos, [Connection(k.ipClient, k.portClient, k.ipServer, k.portServer, c.startTime)])
    ensures At(lines, pos + 1, SideText(ClientSide(c)))
    ensures At(lines, mid, SideText(ServerSide(c)))
    ensures pos + |ConnectionText(k, c)| == mid + |SideText(ServerSide(c))|
  {
    var line := Connection(k.ipClient, k.portClient, k.ipServer, k.portServer, c.startTime);
    var client, server := SideText(ClientSide(c)), SideText(ServerSide(c));
    assert ConnectionText(k, c) == [line] + client + server;
    AtSplit(lines, pos, [line] + client, server);
    AtSplit(lines, pos, [line], client);
  }

  lemma ConnectionSteps(lines: seq<TraceLine>, pos: nat, port: Port, k: ConnId, startTime: real, client: Side, mid: nat, server: Side, end: nat)
    requires NextMatching(lines, pos, ConnectionPattern) == Ok((Connection(k.ipClient, k.portClient, k.ipServer, k.portServer, startTime), pos + 1))
    requires ParseSide(lines, pos + 1) == Ok((client, mid))
    requires ParseSide(lines, mid) == Ok((server, end))
    ensures ParseConnection(lines, pos, port) == Ok((ConnectionSetup(k, startTime, port, client, server), end))
  {
    assert ConnId(k.ipClient, k.portClient, k.ipServer, k.portServer) == k;
  }

  /** A written connection reads back as the pair for it, on the given port. */
  lemma ConnectionAt(lines: seq<TraceLine>, pos: nat, k: ConnId, c: ConnInfo, port: Port, end: nat)
    requires At(lines, pos, ConnectionText(k, c)) && InfoWritable(c) && end == pos + |ConnectionText(k, c)|
    ensures ParseConnection(lines, pos, port) == Ok((SetupFor(k, c, port), end))
  {
    var mid := pos + 1 + |SideText(ClientSide(c))|;
    ConnectionLayout(lines, pos, k, c, mid);
    NextMatchingAt(lines, pos, Connection(k.ipClient, k.portClient, k.ipServer, k.portServer, c.startTime), ConnectionPattern);
    SideAt(lines, pos + 1, ClientSide(c), mid);
    SideAt(lines, mid, ServerSide(c), end);
    ConnectionSteps(lines, pos, port, k, c.startTime, ClientSide(c), mid, ServerSide(c), end);
  }

  /** The pairs for keys ks, the first of them being connection number j. */
  function SetupsFor(ks: seq<ConnId>, m: map<ConnId, ConnInfo>, base: Port, j: nat): (r: seq<ConnectionSetup>)
    requires forall k :: k in ks ==> k in m
    ensures |r| == |ks|
    ensures forall i :: 0 <= i < |ks| ==> r[i] == SetupFor(ks[i], m[ks[i]], ConnectionPort(base, j + i))
    decreases |ks|
  {
    if ks == [] then []
    else [SetupFor(ks[0], m[ks[0]], ConnectionPort(base, j))] + SetupsFor(ks[1..], m, base, j + 1)
  }

  lemma ConnectionsLayout(lines: seq<TraceLine>, pos: nat, ks: seq<ConnId>, m: map<ConnId, ConnInfo>, next: nat)
    requires forall k :: k in ks ==> k in m
    requires ks != [] && At(lines, pos, ConnectionsText(ks, m)) && next == pos + |ConnectionText(ks[0], m[ks[0]])|
    ensures At(lines, pos, ConnectionText(ks[0], m[ks[0]]))
    ensures At(lines, next, ConnectionsText(ks[1..], m))
    ensures pos + |ConnectionsText(ks, m)| == next + |ConnectionsText(ks[1..], m)|
  {
    AtConcat(lines, pos, ConnectionsText(ks, m), ConnectionText(ks[0], m[ks[0]]), ConnectionsText(ks[1..], m), next);
  }

  lemma SetupsAppend(acc: seq<ConnectionSetup>, ks: seq<ConnId>, m: map<ConnId, ConnInfo>, base: Port)
    requires forall k :: k in ks ==> k in m
    requires ks != []
    ensures acc + [SetupFor(ks[0], m[ks[0]], ConnectionPort(base, |acc|))] + SetupsFor(ks[1..], m, base, |acc| + 1)
         == acc + SetupsFor(ks, m, base, |acc|)
  {
  }

  lemma {:induction false} ConnectionsFromAt(lines: seq<TraceLine>, pos: nat, base: Port, ks: seq<ConnId>, m: map<ConnId, ConnInfo>, acc: seq<ConnectionSetup>, result: seq<ConnectionSetup>, end: nat)
    requires forall k :: k in ks ==> k in m && InfoWritable(m[k])
    requires At(lines, pos, ConnectionsText(ks, m)) && end == pos + |ConnectionsText(ks, m)|
    requires result == acc + SetupsFor(ks, m, base, |acc|)
    ensures ParseConnectionsFrom(lines, pos, base, |ks|, acc) == Ok((result, end))
    decreases |ks|
  {
    if ks == [] {
      assert result == acc;
    } else {
      var k, port := ks[0], ConnectionPort(base, |acc|);
      var next := pos + |ConnectionText(k, m[k])|;
      ConnectionsLayout(lines, pos, ks, m, next);
      ConnectionAt(lines, pos, k, m[k], port, next);
      ParseConnectionsFromStep(lines, pos, base, |ks|, acc, SetupFor(k, m[k], port), next);
      SetupsAppend(acc, ks, m, base);
      ConnectionsFromAt(lines, next, base, ks[1..], m, acc + [SetupFor(k, m[k], port)], result, end);
    }
  }

  // ---------------------------------------------------------------------------
  // The whole file

  /** Skipping comments stops at the first line that is not one. */
  lemma {:induction false} SkipCommentsStopsAt(lines: seq<TraceLine>, pos: nat, q: nat)
    requires pos <= q < |lines| && !lines[q].Comment?
    requires forall i :: pos <= i < q ==> lines[i].Comment?
    ensures SkipComments(lines, pos) == q
    decreases q - pos
  {
    if pos < q {
      SkipCommentsStopsAt(lines, pos + 1, q);
    }
  }

  /** The comment block is skipped and the connection count is read. */
  lemma HeaderSkipped(lines: seq<TraceLine>, n: nat)
    requires At(lines, 0, Header() + [Count(n)])
    ensures ParseCount(lines, 0) == Ok((n, HeaderLength + 1))
  {
    AtSplit(lines, 0, Header(), [Count(n)]);
    forall i | 0 <= i < HeaderLength
      ensures lines[i].Comment?
    {
      assert lines[0 + i] == Header()[i];
    }
    assert lines[HeaderLength + 0] == [Count(n)][0];
    SkipCommentsStopsAt(lines, 0, HeaderLength);
  }

  /** The count line and the connections that follow it read back. */
  lemma TraceAt(lines: seq<TraceLine>, base: Port, ks: seq<ConnId>, m: map<ConnId, ConnInfo>)
    requires forall k :: k in ks ==> k in m && InfoWritable(m[k])
    requires lines == Header() + [Count(|ks|)] + ConnectionsText(ks, m)
    ensures ParseTrace(lines, base) == Ok(SetupsFor(ks, m, base, 0))
  {
    var head := Header() + [Count(|ks|)];
    assert At(lines, 0, lines);
    AtSplit(lines, 0, head, ConnectionsText(ks, m));
    HeaderSkipped(lines, |ks|);
    ConnectionsFromAt(lines, |head|, base, ks, m, [], SetupsFor(ks, m, base, 0), |lines|);
  }

  /** std::map holds each key once, so the map order lists |keys| identifiers. */
  lemma SortedKeysCount(s: set<ConnId>)
    ensures |SortedKeys(s)| == |s|
  {
    SortedDistinctCount(SortedKeys(s), s);
  }

  lemma {:induction false} SortedDistinctCount(ks: seq<ConnId>, s: set<ConnId>)
    requires StrictlySorted(ks) && forall k :: k in ks <==> k in s
    ensures |ks| == |s|
    decreases |ks|
  {
    if ks != [] {
      assert ks[0] in s;
      forall k
        ensures k in ks[1..] <==> k in s - {ks[0]}
      {
        if k in ks[1..] {
          var i :| 0 <= i < |ks[1..]| && ks[1..][i] == k;
          assert Less(ks[0], ks[i + 1]);
          LessIsStrictTotalOrder(ks[0], k, k);
        }
        if k in s - {ks[0]} {
          var i :| 0 <= i < |ks| && ks[i] == k;
          assert i != 0;
          assert ks[1..][i - 1] == k;
        }
      }
      SortedDistinctCount(ks[1..], s - {ks[0]});
    } else {
      assert forall k :: k !in s;
      assert s == {};
    }
  }

  /** Every file written for a table of writable packets reads back in full. */
  lemma TraceReadsBack(m: map<ConnId, ConnInfo>, base: Port)
    requires forall k :: k in m ==> InfoWritable(m[k])
    ensures ParseTrace(TraceText(m), base) == Ok(SetupsFor(SortedKeys(m.Keys), m, base, 0))
  {
    SortedKeysCount(m.Keys);
    TraceAt(TraceText(m), base, SortedKeys(m.Keys), m);
  }

  /** The packets recorded in a well-formed connection can be written and read back. */
  lemma ConsistentWritable(c: ConnInfo)
    requires Consistent(c)
    ensures InfoWritable(Flush(c))
  {
  }

  /**
   * The pcap-to-trace conversion round trip: the file written for a table
   * built by ProcessPacketList, after the final flush, reads back as one
   * client/server pair per connection in map order, the j-th on port
   * m_portNumber + j, carrying exactly the table's packets and cycle lists.
   */
  lemma InstallReadsBackTrace(m: map<ConnId, ConnInfo>, base: Port)
    requires TableOk(m)
    ensures |SortedKeys(m.Keys)| == |m.Keys|
    ensures var f := FlushAll(m);
            var ks := SortedKeys(m.Keys);
            var r := ParseTrace(TraceText(f), base);
            && r.Ok? && |r.value| == |m.Keys|
            && forall j :: 0 <= j < |r.value| ==> r.value[j] == SetupFor(ks[j], f[ks[j]], ConnectionPort(base, j))
  {
    var f := FlushAll(m);
    forall k | k in f
      ensures InfoWritable(f[k])
    {
      ConsistentWritable(m[k]);
    }
    TraceReadsBack(f, base);
    SortedKeysCount(m.Keys);
  }

  /**
   * Each pair Install creates from such a file is balanced: every side sends
   * its packets in its cycles, waits per cycle for exactly the bytes its peer
   * sends in total, and the client has as many cycles as the server or one
   * more (when the capture ended with client packets).
   */
  lemma InstalledPairBalanced(m: map<ConnId, ConnInfo>, k: ConnId, port: Port)
    requires TableOk(m) && k in m
    ensures var s := SetupFor(k, Flush(m[k]), port);
            && Sum(s.client.perCycle) == |s.client.packets| && Sum(s.server.perCycle) == |s.server.packets|
            && Sum(s.client.expByte) == Bytes(s.server.packets) && Sum(s.server.expByte) == Bytes(s.client.packets)
            && |s.client.expByte| == |s.server.perCycle| && |s.server.expByte| == |s.client.perCycle|
            && |s.server.perCycle| <= |s.client.perCycle| <= |s.server.perCycle| + 1
  {
    FlushBalances(m[k]);
  }
}
