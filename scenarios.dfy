/**
 * Two uses of the unit from a host's point of view, proved from the contracts
 * of MidiThru alone: a Note-On passing through one render, and events queued
 * until the FIFO refuses one.
 */
module Scenarios {
  import opened Wrappers
  import opened MidiPackets
  import opened PacketLists
  import opened RenderSpec
  import opened MidiThruUnit

  /**
   * A Note-On (status 0x90) on channel 2 for key 60 at velocity 100 becomes
   * one three-byte packet 0x92 60 100 stamped with the render's host time, in
   * a list of 4 + 10 + 3 bytes.
   */
  lemma NoteOnDelivered(t: UInt64)
    ensures Delivered([EventPacket(0x90, 2, 60, 100, 5)], t)
            == PacketList([ListPacket(t, [0x92, 60, 100])], ListHeaderBytes + PacketHeaderBytes + 3)
  {
    var p := EventPacket(0x90, 2, 60, 100, 5);
    assert WireBytes(p) == [0x92, 60, 100];
    assert [p][1..] == [];
  }

  /**
   * A host registers its output callback, initialises the unit, sends the
   * Note-On at sample offset 5 and renders 512 frames at host time `t`: the
   * host callback is called once, with its user data, the render's time
   * stamp, bus 0 and the one-packet list; the UI callback, never registered,
   * is not called.
   */
  method NoteOnThroughRender(host: nat, hostData: nat, t: UInt64) returns (u: MidiThru)
    ensures u.log == [Invocation(host, hostData, AudioTimeStamp(t), 0,
                                 PacketList([ListPacket(t, [0x92, 60, 100])], ListHeaderBytes + PacketHeaderBytes + 3))]
  {
    u := new MidiThru();
    var status := u.SetProperty(PropertyMIDIOutputCallback, ScopeGlobal, 0, CallbackStruct(Some(host), hostData));
    u.SetInitialized(true);
    status := u.HandleMidiEvent(0x90, 2, 60, 100, 5);
    status := u.Render(AudioTimeStamp(t), 512);
    NoteOnDelivered(t);
  }

  /**
   * Without a render in between, the first 31 events are queued (the ring's
   * 32 slots keep one free) and the 32nd is refused with
   * kAudioUnitErr_FailedInitialization, leaving the 31 events queued in the
   * order they were sent.
   */
  method FillUntilRefused() returns (u: MidiThru, results: seq<OSStatus>)
    ensures u.Valid()
    ensures u.fifo.Contents() == seq(FifoSize - 1, j requires 0 <= j < FifoSize - 1 => EventPacket(0x90, 0, 60, 100, j))
    ensures |results| == FifoSize
    ensures forall j :: 0 <= j < FifoSize - 1 ==> results[j] == NoErr
    ensures results[FifoSize - 1] == ErrFailedInitialization
  {
    u := new MidiThru();
    u.SetInitialized(true);
    results := [];
    while |results| < FifoSize
      invariant u.Valid() && fresh(u.fifo) && fresh(u.fifo.items) && u.initialized
      invariant |results| <= FifoSize
      invariant u.fifo.Contents() == seq(if |results| < FifoSize then |results| else FifoSize - 1,
                                         j requires 0 <= j < FifoSize - 1 => EventPacket(0x90, 0, 60, 100, j))
      invariant forall j :: 0 <= j < |results| && j < FifoSize - 1 ==> results[j] == NoErr
      invariant |results| == FifoSize ==> results[FifoSize - 1] == ErrFailedInitialization
    {
      var r := u.HandleMidiEvent(0x90, 0, 60, 100, |results|);
      results := results + [r];
    }
  }
}
