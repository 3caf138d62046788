/**
 * TraceReplayPacket: the packet container of TraceReplay.
 *
 * A packet has a size, a delay (the idle time before it was sent in the
 * capture) and, when the delay is positive, the list of parallel connections
 * (same client and server address, other ports) with the bytes each had seen
 * at that instant.  The C++ class is mutated through setters and
 * AddParallelConnection; the vectors of packets kept by the helper, the client
 * and the server hold copies, which the datatype Packet models.
 */
module Utility {

  /** Port numbers are uint16 in the source. */
  type Port = p: int | 0 <= p < 0x1_0000

  /** One entry of m_parallelConnList. */
  datatype ParallelConnectionInfo = ParallelConnectionInfo(srcPort: Port, dstPort: Port, byteCount: nat)
  {
    /** True when this entry describes the connection (portClient, portServer). */
    predicate Links(portClient: Port, portServer: Port) {
      srcPort == portClient && dstPort == portServer
    }
  }

  /** A TraceReplayPacket as a value, as copied into the packet vectors. */
  datatype Packet = Packet(size: nat, delay: real, parallelConnList: seq<ParallelConnectionInfo>)

  /**
   * Bytes recorded for the connection (portClient, portServer): the byte count
   * of the first entry that matches both ports, or 0 when none does.
   */
  function ExpectedBytes(list: seq<ParallelConnectionInfo>, portClient: Port, portServer: Port): (r: nat)
    ensures r == 0 || exists i :: 0 <= i < |list| && list[i].Links(portClient, portServer) && list[i].byteCount == r
  {
    if list == [] then 0
    else if list[0].Links(portClient, portServer) then list[0].byteCount
    else
      var r := ExpectedBytes(list[1..], portClient, portServer);
      assert r != 0 ==> exists i :: 0 <= i < |list[1..]| && list[1..][i].Links(portClient, portServer) && list[1..][i].byteCount == r;
      assert forall i :: 0 <= i < |list[1..]| ==> list[1..][i] == list[i + 1];
      r
  }

  /** The first matching entry decides the lookup, whatever follows it. */
  lemma {:induction false} ExpectedBytesFirstMatch(list: seq<ParallelConnectionInfo>, portClient: Port, portServer: Port, i: nat)
    requires i < |list| && list[i].Links(portClient, portServer)
    requires forall j :: 0 <= j < i ==> !list[j].Links(portClient, portServer)
    ensures ExpectedBytes(list, portClient, portServer) == list[i].byteCount
  {
    if i > 0 {
      assert !list[0].Links(portClient, portServer);
      ExpectedBytesFirstMatch(list[1..], portClient, portServer, i - 1);
    }
  }

  /** Without a matching entry the lookup yields 0. */
  lemma {:induction false} ExpectedBytesNoMatch(list: seq<ParallelConnectionInfo>, portClient: Port, portServer: Port)
    requires forall j :: 0 <= j < |list| ==> !list[j].Links(portClient, portServer)
    ensures ExpectedBytes(list, portClient, portServer) == 0
  {
    if list != [] {
      assert !list[0].Links(portClient, portServer);
      ExpectedBytesNoMatch(list[1..], portClient, portServer);
    }
  }

  /**
   * Appending an entry never changes the answer for a port pair that an
   * earlier entry already matches, and makes the new entry visible otherwise.
   */
  lemma {:induction false} ExpectedBytesAfterAppend(list: seq<ParallelConnectionInfo>, e: ParallelConnectionInfo, portClient: Port, portServer: Port)
    ensures (exists j :: 0 <= j < |list| && list[j].Links(portClient, portServer)) ==>
              ExpectedBytes(list + [e], portClient, portServer) == ExpectedBytes(list, portClient, portServer)
    ensures (forall j :: 0 <= j < |list| ==> !list[j].Links(portClient, portServer)) ==>
              ExpectedBytes(list + [e], portClient, portServer) == if e.Links(portClient, portServer) then e.byteCount else 0
  {
    if list == [] {
      assert [e][1..] == [];
    } else {
      assert (list + [e])[0] == list[0];
      assert (list + [e])[1..] == list[1..] + [e];
      if !list[0].Links(portClient, portServer) {
        ExpectedBytesAfterAppend(list[1..], e, portClient, portServer);
        if exists j :: 0 <= j < |list| && list[j].Links(portClient, portServer) {
          var j :| 0 <= j < |list| && list[j].Links(portClient, portServer);
          assert list[1..][j - 1] == list[j];
        } else {
          assert forall j :: 0 <= j < |list[1..]| ==> list[1..][j] == list[j + 1];
        }
      }
    }
  }

  /** The mutable TraceReplayPacket object. */
  class TraceReplayPacket {
    var size: nat
    var delay: real
    var parallelConnList: seq<ParallelConnectionInfo>

    /** A fresh packet has size 0, delay 0 and no parallel connection. */
    constructor ()
      ensures size == 0 && delay == 0.0 && parallelConnList == []
    {
      size := 0;
      delay := 0.0;
      parallelConnList := [];
    }

    /** The copy of this packet that a vector stores. */
    function Value(): Packet
      reads this
    {
      Packet(size, delay, parallelConnList)
    }

    function GetNumParallelConnection(): nat
      reads this
    {
      |parallelConnList|
    }

    /** Bytes of the i-th parallel connection; i must be below the count. */
    function GetByteCount(i: nat): nat
      reads this
      requires i < |parallelConnList|
    {
      parallelConnList[i].byteCount
    }

    /** (srcPort, dstPort) of the i-th parallel connection; i must be below the count. */
    function GetConnectionId(i: nat): (Port, Port)
      reads this
      requires i < |parallelConnList|
    {
      (parallelConnList[i].srcPort, parallelConnList[i].dstPort)
    }

    function GetSize(): nat
      reads this
    {
      size
    }

    function GetDelay(): real
      reads this
    {
      delay
    }

    /** Records exactly one entry, at the end; earlier entries, size and delay are kept. */
    method AddParallelConnection(srcPort: Port, dstPort: Port, count: nat)
      modifies this
      ensures GetNumParallelConnection() == old(GetNumParallelConnection()) + 1
      ensures GetConnectionId(old(GetNumParallelConnection())) == (srcPort, dstPort)
      ensures GetByteCount(old(GetNumParallelConnection())) == count
      ensures parallelConnList[..old(|parallelConnList|)] == old(parallelConnList)
      ensures parallelConnList == old(parallelConnList) + [ParallelConnectionInfo(srcPort, dstPort, count)]
      ensures size == old(size) && delay == old(delay)
    {
      parallelConnList := parallelConnList + [ParallelConnectionInfo(srcPort, dstPort, count)];
    }

    method SetSize(newSize: nat)
      modifies this
      ensures GetSize() == newSize
      ensures delay == old(delay) && parallelConnList == old(parallelConnList)
    {
      size := newSize;
    }

    method SetDelay(newDelay: real)
      modifies this
      ensures GetDelay() == newDelay
      ensures size == old(size) && parallelConnList == old(parallelConnList)
    {
      delay := newDelay;
    }

    /**
     * The byte count recorded for (portClient, portServer): a linear search
     * that stops at the first entry matching both ports, 0 if there is none.
     */
    method GetByteCountFor(portClient: Port, portServer: Port) returns (expectedByte: nat)
      ensures expectedByte == ExpectedBytes(parallelConnList, portClient, portServer)
    {
      expectedByte := 0;
      var i := 0;
      while i < |parallelConnList|
        invariant 0 <= i <= |parallelConnList|
        invariant expectedByte == 0
        invariant ExpectedBytes(parallelConnList, portClient, portServer) == ExpectedBytes(parallelConnList[i..], portClient, portServer)
      {
        if parallelConnList[i].Links(portClient, portServer) {
          expectedByte := parallelConnList[i].byteCount;
          break;
        }
        assert parallelConnList[i..][1..] == parallelConnList[i + 1..];
        i := i + 1;
      }
    }
  }
}
