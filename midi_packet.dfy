/**
 * The record that moves through the engine's FIFO (CoreMIDI's MIDIPacket: a
 * time stamp, a byte count and a 256-byte data array), the record that
 * MIDIThru::HandleMidiEvent builds from one event, and the channel-voice part
 * of the MIDI 1.0 status-byte table that the byte count has to agree with.
 */
module MidiPackets {
  import opened Wrappers

  type UInt8 = bv8
  type UInt16 = x: int | 0 <= x < 0x1_0000
  type UInt32 = x: int | 0 <= x < 0x1_0000_0000
  /** MIDITimeStamp and the host time of an AudioTimeStamp. */
  type UInt64 = x: int | 0 <= x < 0x1_0000_0000_0000_0000

  /** Number of bytes in MIDIPacket's data array. */
  const PacketDataSize := 256

  /** The fields of a MIDIPacket: time stamp, byte count, data array. */
  datatype PacketFields = PacketFields(timeStamp: UInt64, length: UInt16, data: seq<UInt8>)

  /**
   * A MIDIPacket as stored in a FIFO slot: its data array always has 256
   * bytes, and the byte count does not run past it.
   */
  type MidiPacket = p: PacketFields | |p.data| == PacketDataSize && p.length <= PacketDataSize
    witness PacketFields(0, 0, seq(PacketDataSize, _ => 0))

  /** A record as HandleMidiEvent leaves it: two or three bytes in use. */
  predicate IsEventRecord(v: MidiPacket) {
    v.length == 2 || v.length == 3
  }

  predicate AllEventRecords(q: seq<MidiPacket>) {
    forall i :: 0 <= i < |q| ==> IsEventRecord(q[i])
  }

  /** The bytes a packet puts on the wire: the first `length` bytes of its data. */
  function WireBytes(v: MidiPacket): (b: seq<UInt8>)
    ensures |b| == v.length
  {
    v.data[..v.length]
  }

  function Zeros(n: nat): (z: seq<UInt8>)
    ensures |z| == n && forall i :: 0 <= i < n ==> z[i] == 0
  {
    seq(n, _ => 0 as UInt8)
  }

  /**
   * The record HandleMidiEvent stores for one event: the status byte combined
   * with the channel, the two data bytes, zeros after them, two bytes in use for
   * the status bytes 0xC0 and 0xD0 and three for every other, and the sample
   * offset as a provisional time stamp.
   */
  function EventPacket(status: UInt8, channel: UInt8, data1: UInt8, data2: UInt8, offset: UInt32): (p: MidiPacket)
    ensures IsEventRecord(p)
    ensures p.length == 2 <==> (status == 0xC0 || status == 0xD0)
    ensures p.data[0] == status | channel && p.data[1] == data1 && p.data[2] == data2
    ensures forall i :: 3 <= i < PacketDataSize ==> p.data[i] == 0
    ensures p.timeStamp == offset
  {
    var bytes := Zeros(PacketDataSize)[0 := status | channel][1 := data1][2 := data2];
    PacketFields(offset, if status == 0xC0 || status == 0xD0 then 2 else 3, bytes)
  }

  // The channel-voice rows of Table I (Summary of Status Bytes) of the MIDI 1.0
  // Detailed Specification, as a receiver reads them.

  /** A status byte of a channel-voice message: 0x80 to 0xEF. */
  predicate IsChannelStatus(b: UInt8) {
    0x80 <= b < 0xF0
  }

  /**
   * Number of data bytes after a channel-voice status byte, by message type
   * (its high nibble): one for program change (0xC) and channel pressure
   * (0xD); two for note off, note on, polyphonic pressure, control change and
   * pitch bend.
   */
  function ChannelDataLength(statusByte: UInt8): nat
    requires IsChannelStatus(statusByte)
  {
    var kind := statusByte >> 4;
    if kind == 0x8 || kind == 0x9 || kind == 0xA || kind == 0xB || kind == 0xE then 2 else 1
  }

  datatype ChannelMessage = ChannelMessage(kind: UInt8, channel: UInt8, dataBytes: seq<UInt8>)

  /** Reads one complete channel-voice message from wire bytes, or None if they are not one. */
  function ParseChannelMessage(bytes: seq<UInt8>): Option<ChannelMessage> {
    if |bytes| == 0 || !IsChannelStatus(bytes[0]) then None
    else if |bytes| != 1 + ChannelDataLength(bytes[0]) then None
    else Some(ChannelMessage(bytes[0] & 0xF0, bytes[0] & 0x0F, bytes[1..]))
  }

  /**
   * When the status byte is a bare channel-voice type (low nibble zero, as the
   * AudioUnit framework delivers it with the channel split off) and the channel
   * fits in four bits, the stored byte count is the one Table I gives, and the
   * wire bytes read back as the same message with one data byte or two.
   */
  lemma EventFollowsMidiTable(status: UInt8, channel: UInt8, data1: UInt8, data2: UInt8, offset: UInt32)
    requires IsChannelStatus(status) && status & 0x0F == 0 && channel < 16
    ensures var p := EventPacket(status, channel, data1, data2, offset);
            && p.length == 1 + ChannelDataLength(status | channel)
            && ParseChannelMessage(WireBytes(p))
               == Some(ChannelMessage(status, channel, if p.length == 2 then [data1] else [data1, data2]))
  {
    var p := EventPacket(status, channel, data1, data2, offset);
    var b := status | channel;
    assert b >> 4 == status >> 4;
    assert b & 0xF0 == status && b & 0x0F == channel;
    assert IsChannelStatus(b);
    if p.length == 2 {
      assert WireBytes(p) == [b, data1];
    } else {
      assert WireBytes(p) == [b, data1, data2];
    }
  }

  /**
   * The length rule compares the whole status byte: a status byte that still
   * carries channel bits gets three bytes even for program change.
   */
  lemma WholeByteComparison()
    ensures EventPacket(0xC3, 0, 0x10, 0, 0).length == 3
    ensures ChannelDataLength(0xC3) == 1
  {
  }
}
