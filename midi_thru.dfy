/**
 * The MIDIThru AudioUnit's MIDI path: events handed to HandleMidiEvent are
 * queued in a FIFO of MIDIPacket slots; each Render call drains the queue in
 * order into one packet list stamped with the render's host time and hands the
 * list to the host's MIDI output callback and then to the UI's callback.
 */
module MidiThruUnit {
  import opened Wrappers
  import opened MidiPackets
  import opened PacketLists
  import opened LockFreeFifo
  import opened RenderSpec

  /** Slots the constructor gives the FIFO. */
  const FifoSize := 32
  /** kMIDIThruVersion. */
  const MidiThruVersion := 65538
  /** kAudioUnitCustomPropertyUICB: the property through which the UI registers its callback. */
  const CustomPropertyUICB := 64056
  /** kAudioUnitProperty_MIDIOutputCallback. */
  const PropertyMIDIOutputCallback := 48
  /** kAudioUnitScope_Global. */
  const ScopeGlobal := 0
  /** The least property ID the AudioUnit API leaves to a unit's own properties. */
  const FirstCustomPropertyID := 64000

  /** The OSStatus results the MIDI path returns. */
  datatype OSStatus = NoErr | ErrUninitialized | ErrFailedInitialization | ErrInvalidScope | ErrInvalidProperty {
    /** The numeric code of the AudioUnit API: zero for success, negative for an error. */
    function Code(): (c: int)
      ensures c == 0 <==> this == NoErr
      ensures c <= 0
    {
      match this
      case NoErr => 0
      case ErrUninitialized => -10867
      case ErrFailedInitialization => -10875
      case ErrInvalidScope => -10866
      case ErrInvalidProperty => -10879
    }
  }

  /** Distinct results have distinct codes, so a caller can tell every error apart. */
  lemma CodesDistinct(a: OSStatus, b: OSStatus)
    ensures a.Code() == b.Code() <==> a == b
  {
  }

  /** The UI callback's property ID is a custom one and differs from the host's. */
  lemma CustomPropertyIsCustom()
    ensures CustomPropertyUICB >= FirstCustomPropertyID
    ensures CustomPropertyUICB != PropertyMIDIOutputCallback
  {
  }

  /**
   * The part of HandleMidiEvent that fills the reserved slot `i` in place:
   * clear the data array, set the byte count from the status byte, write the
   * status byte combined with the channel and the two data bytes, and record
   * the sample offset as the time stamp. No other slot changes.
   */
  method FillPacket(items: array<MidiPacket>, i: nat, status: UInt8, channel: UInt8, data1: UInt8, data2: UInt8, offset: UInt32)
    requires i < items.Length
    modifies items
    ensures items[..] == old(items[..])[i := EventPacket(status, channel, data1, data2, offset)]
  {
    items[i] := items[i].(data := Zeros(PacketDataSize));
    items[i] := items[i].(length := if status == 0xC0 || status == 0xD0 then 2 else 3);
    items[i] := items[i].(data := items[i].data[0 := status | channel]);
    items[i] := items[i].(data := items[i].data[1 := data1]);
    items[i] := items[i].(data := items[i].data[2 := data2]);
    items[i] := items[i].(timeStamp := offset);
  }

  class MidiThru {
    /** The framework's IsInitialized(). */
    var initialized: bool
    /** mOutputPacketFIFO. */
    const fifo: PacketFifo
    /** mMIDIOutCB: the host's MIDI output callback. */
    var midiOutCB: CallbackStruct
    /** mUICB: the UI's monitor callback. */
    var uiCB: CallbackStruct
    /** Every listener call made so far, in order. */
    ghost var log: seq<Invocation>

    /**
     * The FIFO has the 32 slots the constructor gives it, its cursors are in
     * range, and every queued record has the 2 or 3 bytes of an event record.
     */
    ghost predicate Valid()
      reads fifo, fifo.items
    {
      fifo.Valid() && fifo.items.Length == FifoSize && AllEventRecords(fifo.Contents())
    }

    /** Builds the FIFO with 32 slots and nulls both callbacks. */
    constructor ()
      ensures Valid() && fresh(fifo) && fresh(fifo.items)
      ensures !initialized && fifo.Capacity() == FifoSize - 1 && fifo.Contents() == []
      ensures midiOutCB.proc == None && uiCB.proc == None
      ensures log == []
    {
      initialized := false;
      fifo := new PacketFifo(FifoSize);
      var outData: nat, uiData: nat := *, *;
      midiOutCB := CallbackStruct(None, outData);
      uiCB := CallbackStruct(None, uiData);
      log := [];
    }

    /** The framework's Initialize and Uninitialize, which set what IsInitialized reports. */
    method SetInitialized(b: bool)
      modifies this`initialized
      ensures initialized == b
    {
      initialized := b;
    }

    /** Version(): 65538, that is version 1.0.2 packed as major, minor, bug-fix. */
    function Version(): (v: int)
      ensures v / 0x10000 == 1 && (v / 0x100) % 0x100 == 0 && v % 0x100 == 2
    {
      MidiThruVersion
    }

    /** SupportsTail(): the unit has no tail. */
    function SupportsTail(): (b: bool)
      ensures !b
    {
      false
    }

    /**
     * Queues one event. Before initialisation nothing happens; on a full ring
     * the event is dropped; otherwise the write slot is published and then
     * filled with the event's record (EventPacket).
     */
    method HandleMidiEvent(status: UInt8, channel: UInt8, data1: UInt8, data2: UInt8, offset: UInt32)
      returns (r: OSStatus)
      requires Valid()
      modifies fifo, fifo.items
      ensures Valid()
      ensures !old(initialized) ==> r == ErrUninitialized
      ensures old(initialized) && |old(fifo.Contents())| == fifo.Capacity() ==> r == ErrFailedInitialization
      ensures r != NoErr ==> fifo.Contents() == old(fifo.Contents())
      ensures old(initialized) && |old(fifo.Contents())| < fifo.Capacity() ==>
                r == NoErr && fifo.Contents() == old(fifo.Contents()) + [EventPacket(status, channel, data1, data2, offset)]
    {
      if !initialized {
        return ErrUninitialized;
      }

      var slot := fifo.WriteItem();
      fifo.AdvanceWritePtr();

      if slot.None? {
        return ErrFailedInitialization;
      }

      var i := slot.value;
      ghost var before := fifo.items[..];
      FillPacket(fifo.items, i, status, channel, data1, data2, offset);
      RingPush(before, fifo.readIndex, i, EventPacket(status, channel, data1, data2, offset));
      return NoErr;
    }

    /**
     * One turn of Render's drain loop on the oldest queued slot `i`: rewrite
     * its time stamp in place with `t`, add it to `list`, and release the slot
     * whether or not the add succeeded. `added` is the add's outcome.
     */
    method ForwardOldest(i: nat, t: UInt64, list: PacketList) returns (added: Option<PacketList>)
      requires fifo.Valid() && fifo.Contents() != [] && i == fifo.readIndex
      modifies fifo, fifo.items
      ensures fifo.Valid()
      ensures added == Add(list, MidiPacketListSize, t, WireBytes(old(fifo.Contents())[0]))
      ensures fifo.Contents() == old(fifo.Contents())[1..]
      ensures fifo.items[i] == old(fifo.Contents())[0].(timeStamp := t)
    {
      RingContentsAt(fifo.items[..], fifo.readIndex, fifo.writeIndex);
      ghost var before := fifo.items[..];
      fifo.items[i] := fifo.items[i].(timeStamp := t);
      var packet := fifo.items[i];
      assert fifo.items[..] == before[i := packet];
      added := Add(list, MidiPacketListSize, packet.timeStamp, packet.data[..packet.length]);
      RingPop(before, i, fifo.writeIndex, packet);
      fifo.AdvanceReadPtr();
    }

    /**
     * The drain loop of Render: takes records off the queue in order, rewrites
     * each one's time stamp in its slot with host time `t`, adds it to a packet
     * list of kMIDIPacketListSize bytes and releases the slot, whether or not
     * the add succeeded. `aborted` is the source's early return from Render,
     * taken when a record is still queued after a failed add. The outcome is
     * the specification function Drain.
     */
    method DrainFifo(t: UInt64) returns (packetList: PacketList, aborted: bool)
      requires Valid()
      modifies fifo, fifo.items
      ensures Valid()
      ensures var d := Drain(old(fifo.Contents()), t, MidiPacketListSize);
              && packetList == d.list && aborted == d.aborted
              && fifo.Contents() == old(fifo.Contents())[d.consumed..]
    {
      ghost var q0 := fifo.Contents();
      ghost var k := 0;
      ghost var goal := Drain(q0, t, MidiPacketListSize);

      packetList := EmptyList;
      var iterOk := true;
      var slot := fifo.ReadItem();

      while slot.Some?
        invariant fifo.Valid() && 0 <= k <= |q0| && fifo.Contents() == q0[k..]
        invariant slot.None? <==> fifo.Contents() == []
        invariant slot.Some? ==> slot.value == fifo.readIndex
        invariant goal == DrainAt(q0, k, t, MidiPacketListSize, packetList, iterOk)
        decreases |q0| - k
      {
        if !iterOk {
          return packetList, true;
        }

        var added := ForwardOldest(slot.value, t, packetList);
        assert q0[k..][0] == q0[k] && q0[k..][1..] == q0[k + 1..];
        packetList, iterOk := added.GetOr(packetList), added.Some?;
        k := k + 1;
        slot := fifo.ReadItem();
      }

      return packetList, false;
    }

    /**
     * The MIDI part of Render: the drain loop (DrainFifo) with the render's
     * host time, then, unless the loop returned early, the host callback and
     * the UI callback, each only when it is set and the list holds a packet.
     * Always NoErr. With the source's sizes the queue is always emptied and
     * every record reaches the listeners.
     */
    method Render(inTimeStamp: AudioTimeStamp, nFrames: UInt32) returns (r: OSStatus)
      requires Valid()
      modifies this`log, fifo, fifo.items
      ensures Valid()
      ensures r == NoErr
      ensures var d := Drain(old(fifo.Contents()), inTimeStamp.hostTime, MidiPacketListSize);
              && fifo.Contents() == old(fifo.Contents())[d.consumed..]
              && log == old(log) + RenderCalls(old(fifo.Contents()), midiOutCB, uiCB, inTimeStamp)
      ensures fifo.Contents() == []
      ensures log == old(log) + Dispatch(midiOutCB, uiCB, inTimeStamp, Delivered(old(fifo.Contents()), inTimeStamp.hostTime))
    {
      DefaultSizesNeverOverflow(fifo.Contents(), inTimeStamp.hostTime);

      var packetList, aborted := DrainFifo(inTimeStamp.hostTime);
      if aborted {
        return NoErr;
      }

      if midiOutCB.proc.Some? && packetList.NumPackets() > 0 {
        log := log + [Invocation(midiOutCB.proc.value, midiOutCB.userData, inTimeStamp, 0, packetList)];
      }

      if uiCB.proc.Some? && packetList.NumPackets() > 0 {
        log := log + [Invocation(uiCB.proc.value, uiCB.userData, inTimeStamp, 0, packetList)];
      }

      return NoErr;
    }

    /**
     * Registers a callback. In the global scope the MIDI output callback
     * property replaces only the host's registration and the custom property
     * 64056 only the UI's; any other ID is an invalid property and any other
     * scope an invalid scope, and neither error changes a registration.
     */
    method SetProperty(inID: UInt32, inScope: UInt32, inElement: UInt32, inData: CallbackStruct)
      returns (status: OSStatus)
      modifies this`midiOutCB, this`uiCB
      ensures inScope != ScopeGlobal ==> status == ErrInvalidScope
      ensures inScope == ScopeGlobal && inID == PropertyMIDIOutputCallback ==>
                status == NoErr && midiOutCB == inData && uiCB == old(uiCB)
      ensures inScope == ScopeGlobal && inID == CustomPropertyUICB ==>
                status == NoErr && uiCB == inData && midiOutCB == old(midiOutCB)
      ensures inScope == ScopeGlobal && inID != PropertyMIDIOutputCallback && inID != CustomPropertyUICB ==>
                status == ErrInvalidProperty
      ensures status != NoErr ==> midiOutCB == old(midiOutCB) && uiCB == old(uiCB)
    {
      status := ErrInvalidProperty;

      if inScope == ScopeGlobal {
        if inID == PropertyMIDIOutputCallback {
          midiOutCB := inData;
          status := NoErr;
        } else if inID == CustomPropertyUICB {
          uiCB := inData;
          status := NoErr;
        }
      } else {
        status := ErrInvalidScope;
      }
    }
  }
}
