/**
 * The outgoing packet list that Render assembles on its stack (CoreMIDI's
 * MIDIPacketList) and the one CoreMIDI call it uses to fill it,
 * MIDIPacketListAdd, taken as "append one packet if it fits in the byte
 * budget, else report failure and leave the list as it was".
 */
module PacketLists {
  import opened Wrappers
  import opened MidiPackets

  /** kMIDIPacketListSize: the byte budget of the list buffer in Render. */
  const MidiPacketListSize := 2048
  /** The list's numPackets count (a UInt32). */
  const ListHeaderBytes := 4
  /** A packet's timeStamp (8 bytes) and length (2 bytes) before its data. */
  const PacketHeaderBytes := 10

  datatype ListPacket = ListPacket(timeStamp: UInt64, bytes: seq<UInt8>)

  /**
   * The list buffer: its packets in order, and `used`, the number of bytes of
   * the buffer in use, which is where the packet-list iterator points past.
   */
  datatype PacketList = PacketList(packets: seq<ListPacket>, used: nat) {
    /** The list's numPackets field. */
    function NumPackets(): nat {
      |packets|
    }
  }

  /** MIDIPacketListInit: no packets, only the numPackets field in use. */
  const EmptyList := PacketList([], ListHeaderBytes)

  function PacketBytes(p: ListPacket): nat {
    PacketHeaderBytes + |p.bytes|
  }

  /** Bytes taken by a sequence of packets, summed from the back so that appending is one step. */
  function PacketsBytes(ps: seq<ListPacket>): nat {
    if ps == [] then 0 else PacketsBytes(ps[..|ps| - 1]) + PacketBytes(ps[|ps| - 1])
  }

  /** Putting a packet in front adds its bytes. */
  lemma {:induction false} PacketsBytesCons(p: ListPacket, ps: seq<ListPacket>)
    ensures PacketsBytes([p] + ps) == PacketBytes(p) + PacketsBytes(ps)
  {
    if ps != [] {
      var s := [p] + ps;
      assert s[..|s| - 1] == [p] + ps[..|ps| - 1];
      PacketsBytesCons(p, ps[..|ps| - 1]);
    }
  }

  /** The bytes in use are the header and every packet's header and data. */
  predicate Accounted(list: PacketList) {
    list.used == ListHeaderBytes + PacketsBytes(list.packets)
  }

  /**
   * MIDIPacketListAdd(list, budget, iterator, t, |bytes|, bytes): the extended
   * list when one more packet fits in `budget` bytes, or None for the NULL
   * iterator that reports a full list (the list itself is left as it was).
   */
  function Add(list: PacketList, budget: nat, t: UInt64, bytes: seq<UInt8>): (r: Option<PacketList>)
    ensures r.Some? <==> list.used + PacketHeaderBytes + |bytes| <= budget
    ensures r.Some? ==> r.value.packets == list.packets + [ListPacket(t, bytes)]
    ensures r.Some? ==> r.value.used == list.used + PacketHeaderBytes + |bytes| <= budget
  {
    if list.used + PacketHeaderBytes + |bytes| <= budget then
      Some(PacketList(list.packets + [ListPacket(t, bytes)], list.used + PacketHeaderBytes + |bytes|))
    else
      None
  }

  /** The empty list and every successful add keep the byte count exact. */
  lemma AddAccounting(list: PacketList, budget: nat, t: UInt64, bytes: seq<UInt8>)
    ensures Accounted(EmptyList)
    ensures Accounted(list) && Add(list, budget, t, bytes).Some? ==> Accounted(Add(list, budget, t, bytes).value)
  {
    var ps := list.packets + [ListPacket(t, bytes)];
    assert ps[..|ps| - 1] == list.packets;
  }
}
