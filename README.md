# MIDIThru: a verified model of the MIDI pass-through engine

MIDIThru is an AudioUnit MIDI effect that passes MIDI through unchanged. The
host delivers each incoming event to `HandleMidiEvent`. That method builds a
CoreMIDI `MIDIPacket` (status byte combined with the channel, two data bytes,
a byte count of 2 or 3) and queues it in a 32-slot lock-free FIFO. Each audio
`Render` call then drains the FIFO in arrival order. It rewrites every drained
packet's time stamp with the render's host time and appends the packet to a
2048-byte `MIDIPacketList`. It then hands the list to the host's MIDI output
callback and after that to the UI's monitor callback. `SetProperty` registers
the two callbacks.

The model follows the source's imperative form:

- `MidiThruUnit.MidiThru` is a class with the unit's state. It holds the
  initialised flag, the two callback registrations and the FIFO, plus a ghost
  log of every listener call.
- `LockFreeFifo.PacketFifo` is a class over an `array` of packet slots with a
  read cursor and a write cursor. The engine writes the slot that
  `WriteItem` / `ReadItem` names in place, as the source does through the
  returned pointer.
- Each method is proved against pure specification functions:
  - `EventPacket` is the record one event becomes.
  - `Drain` / `DrainAt` are the drain loop.
  - `Dispatch` / `RenderCalls` are the listener calls.
  - `RingContents` is the queue a ring holds.
- Lemmas prove what the source promises about those functions: FIFO order,
  time-stamp rewrite, the length rule, the byte budget, the early return, and
  the dispatch order.

Modules:

- `wrappers.dfy` holds `Option`.
- `midi_packet.dfy` holds the packet record, the event record and the
  channel-voice rows of the MIDI 1.0 status-byte table.
- `packet_list.dfy` holds the packet list and `MIDIPacketListAdd`.
- `lock_free_fifo.dfy` holds the ring FIFO.
- `render_spec.dfy` holds the drain and dispatch specification.
- `midi_thru.dfy` holds the unit.
- `scenarios.dfy` holds two host-side uses proved from the unit's contracts.

## Model

| member | source | states |
|---|---|---|
| MidiThruUnit.MidiThru.constructor | Source/AUSource/MIDIThru.cpp:28-38 | The FIFO is empty and has 32 slots, so it holds 31 records. Both callback registrations are null. The unit starts uninitialised. |
| MidiThruUnit.MidiThru.SetInitialized | Source/AUSource/MIDIThru.cpp:200 | Sets what `IsInitialized()` reports, as the framework's Initialize/Uninitialize do. |
| MidiThruUnit.MidiThru.Version | Source/AUSource/MIDIThru.h:66 | The result is `kMIDIThruVersion` (line 34): 65538, which is major 1, minor 0, bug-fix 2 in the AudioUnit packing. |
| MidiThruUnit.MidiThru.SupportsTail | Source/AUSource/MIDIThru.h:64 | Always false: the unit has no tail. |
| MidiThruUnit.CustomPropertyIsCustom | Source/AUSource/MIDIThru.h:38-41 | The UI-callback property ID 64056 obeys the rule that custom IDs are at least 64000. It differs from `kAudioUnitProperty_MIDIOutputCallback`. |
| MidiThruUnit.OSStatus.Code | Source/AUSource/MIDIThru.cpp:202-221 | noErr, returned at line 221, is the only result with code 0. The errors returned at lines 202 and 210 are negative. |
| MidiThruUnit.CodesDistinct | Source/AUSource/MIDIThru.cpp:165-221 | The five results of HandleMidiEvent and SetProperty have pairwise distinct codes. |
| MidiThruUnit.MidiThru.SetProperty | Source/AUSource/MIDIThru.cpp:161-184 | Global scope, MIDI output callback property: replaces only the host registration and returns noErr. Global scope, custom property 64056: replaces only the UI registration and returns noErr. Other IDs in global scope: `kAudioUnitErr_InvalidProperty`. Any other scope: `kAudioUnitErr_InvalidScope`. No error changes a registration. |
| MidiThruUnit.MidiThru.HandleMidiEvent | Source/AUSource/MIDIThru.cpp:197-222 | Before initialisation: `kAudioUnitErr_Uninitialized`. On a full FIFO: `kAudioUnitErr_FailedInitialization`. Neither error changes the queue. Otherwise: noErr, and the queue is the old queue with `EventPacket(...)` appended at the end. The unit's invariant is kept. |
| MidiThruUnit.FillPacket | Source/AUSource/MIDIThru.cpp:213-219 | The in-place writes (memset, byte count, three data bytes, time stamp) leave exactly `EventPacket(...)` in the reserved slot. No other slot changes. |
| MidiPackets.EventPacket | Source/AUSource/MIDIThru.cpp:213-219 | The stored record uses 2 bytes exactly when `status` is 0xC0 or 0xD0, and 3 otherwise. Its bytes are `status \| channel`, `data1`, `data2`, then zeros up to 256. Its time stamp is the sample offset. |
| MidiPackets.EventFollowsMidiTable | Source/AUSource/MIDIThru.cpp:214-216 | For a bare channel-voice status and a 4-bit channel, the byte count is 1 + the data-byte count of MIDI 1.0 Table I. The wire bytes parse back to the same message. |
| MidiPackets.WholeByteComparison | Source/AUSource/MIDIThru.cpp:214-215 | The rule compares the whole status byte: a program change that still carries channel bits (0xC3) gets 3 bytes although the table gives it 2. |
| LockFreeFifo.PacketFifo.constructor | Source/AUSource/MIDIThru.cpp:29 | `LockFreeFIFO<MIDIPacket>(32)`: 32 fresh slots, nothing queued, capacity 31. |
| LockFreeFifo.PacketFifo.WriteItem | Source/AUSource/MIDIThru.cpp:205 | No slot (NULL) exactly when the ring holds its capacity. Otherwise returns the write slot. |
| LockFreeFifo.PacketFifo.AdvanceWritePtr | Source/AUSource/MIDIThru.cpp:206 | On a ring that is not full, publishes the write slot: the queue gains that slot's record at the end. On a full ring, nothing changes (the model's assumption). |
| LockFreeFifo.PacketFifo.ReadItem | Source/AUSource/MIDIThru.cpp:238 | No slot (NULL) exactly when nothing is queued. Otherwise returns the slot holding the oldest record. |
| LockFreeFifo.PacketFifo.AdvanceReadPtr | Source/AUSource/MIDIThru.cpp:253 | Drops the oldest record and keeps the rest in order. |
| LockFreeFifo.RingPush | Source/AUSource/MIDIThru.cpp:205-219 | Filling the write slot with a record and publishing it appends that record. The records already queued are untouched. |
| LockFreeFifo.RingPop | Source/AUSource/MIDIThru.cpp:248-254 | Whatever the reader writes into the read slot, releasing it removes exactly the oldest record. |
| LockFreeFifo.AdvanceOnFullRingEmptiesIt | Source/AUSource/MIDIThru.cpp:205-211 | If the write cursor were advanced on a full ring, it would land on the read cursor and all 31 queued records would vanish. This is why the model's AdvanceWritePtr leaves a full ring alone. |
| PacketLists.Add | Source/AUSource/MIDIThru.cpp:250-252 | `MIDIPacketListAdd` appends (time stamp, bytes) exactly when header and bytes fit in the budget. Otherwise it returns NULL and the list is unchanged. The used bytes never exceed the budget. |
| PacketLists.AddAccounting | Source/AUSource/MIDIThru.cpp:250-252 | The list's used-byte count always equals its header plus each packet's header and data. |
| RenderSpec.RestampPointwise | Source/AUSource/MIDIThru.cpp:248-252 | Each record keeps its position and its first `length` bytes, and carries the render's host time instead of its offset. |
| RenderSpec.DeliveredAccounted | Source/AUSource/MIDIThru.cpp:248-252 | The list that carries the whole restamped queue has the byte count that `MIDIPacketListAdd` keeps: a 4-byte header plus each packet's header and data. |
| RenderSpec.DrainTakesOnlyQueued | Source/AUSource/MIDIThru.cpp:240-255 | The drain loop takes no more records than are queued. |
| RenderSpec.DrainAtOrder | Source/AUSource/MIDIThru.cpp:240-255 | FIFO order: the list gains the next `n` queued records, in queue order, each restamped with the host time. |
| RenderSpec.DrainAtOutcome | Source/AUSource/MIDIThru.cpp:243-255 | Every record taken is in the list, except the one whose add returned NULL. The loop returns early only when records are still queued after such a failure. Otherwise it takes the whole queue. |
| RenderSpec.DrainAtBudget | Source/AUSource/MIDIThru.cpp:250-252 | The assembled list never exceeds its byte budget, and its byte count stays exact. |
| RenderSpec.DrainAtAllFits | Source/AUSource/MIDIThru.cpp:240-255 | When the queued records fit in the remaining budget, the drain adds all of them in order and does not overflow. |
| RenderSpec.EventRecordsBytes | Source/AUSource/MIDIThru.cpp:214-215 | Records of 2 or 3 bytes take at most 13 list bytes each. |
| RenderSpec.DefaultSizesNeverOverflow | Source/AUSource/MIDIThru.cpp:234-255 | With 32 slots and the 2048-byte budget (MIDIThru.h:36), the list cannot overflow. Render drains every queued record into it, in order, restamped. |
| RenderSpec.OverflowBeforeLastSkipsListeners | Source/AUSource/MIDIThru.cpp:243-253 | If an add fails with another record queued behind it, the failed record is consumed but not delivered, and no listener is called. |
| RenderSpec.DispatchCalls | Source/AUSource/MIDIThru.cpp:257-267 | Each non-null callback is called once, only for a non-empty list. The host callback comes first. Each call gets its own user data, the render time stamp, bus 0 and the list. |
| RenderSpec.RenderDeliversQueue | Source/AUSource/MIDIThru.cpp:238-267 | End to end, with the source's sizes: each non-null listener receives every queued event, in arrival order, with the host time and its 2 or 3 bytes. |
| MidiThruUnit.MidiThru.ForwardOldest | Source/AUSource/MIDIThru.cpp:248-254 | One loop turn: the oldest slot's time stamp is rewritten in place, the add's outcome is `Add` of that record, and the slot is released. |
| MidiThruUnit.MidiThru.DrainFifo | Source/AUSource/MIDIThru.cpp:233-255 | The loop's list, its early return and the records it leaves queued are exactly those of `Drain` on the old queue. |
| MidiThruUnit.MidiThru.Render | Source/AUSource/MIDIThru.cpp:224-270 | Always noErr. The queue left over and the listener calls made are those `Drain` and `RenderCalls` give; there are no calls after the early return. With the unit's 32 slots, the queue is emptied and the listeners receive all queued events, restamped, in order. |
| Scenarios.NoteOnDelivered | Source/AUSource/MIDIThru.cpp:213-252 | A Note-On (0x90, channel 2, key 60, velocity 100) becomes one packet 0x92 60 100 with the host time. |
| Scenarios.NoteOnThroughRender | Source/AUSource/MIDIThru.cpp:161-267 | Register the host callback, initialise, send the Note-On, render once: the host callback is called exactly once with that one-packet list. The UI callback is not called. |
| Scenarios.FillUntilRefused | Source/AUSource/MIDIThru.cpp:205-211 | Without a render in between, 31 events are accepted and the 32nd gets `kAudioUnitErr_FailedInitialization`. The queue then holds exactly the 31 accepted events' records, in the order they were sent. |

## Behaviour of the source worth knowing

- The length rule compares the whole `status` byte against 0xC0 and 0xD0
  (MIDIThru.cpp:214-215), not its high nibble. `WholeByteComparison` shows
  the difference.
- When `MIDIPacketListAdd` returns NULL, the loop still releases the record
  it could not add (MIDIThru.cpp:249-253), so that record is lost.
- If another record is queued behind it, the next turn returns at
  MIDIThru.cpp:243-245 before either callback runs. The packets already in the
  list are then not delivered.
  - `DrainAtOutcome` and `OverflowBeforeLastSkipsListeners` state this.
  - `DefaultSizesNeverOverflow` proves it cannot happen with the unit's 32
    slots and 2048-byte list.
- The FIFO built at MIDIThru.cpp:29 is a ring of 32 slots that keeps one slot
  free, so at most 31 events are queued at once. `FillUntilRefused` shows the
  32nd being refused.

## Left out

- `GetPropertyInfo` and `GetProperty` (MIDIThru.cpp:45-159) are left out. They
  are CoreFoundation bundle and URL lookups for the plugin protocol.
- All `os_log` logging, `parameterIDToString` and `statusToString` are left
  out: they are output through a library that is not shown.
- Render's audio-buffer zeroing (MIDIThru.cpp:227-231) is left out. So are its
  `ioActionFlags` argument and any use of `nFrames`, since they do not touch
  the MIDI path.
- The lock-free and memory-ordering behaviour of the FIFO is left out. The
  model is single-threaded: one producer call or one consumer call at a time.
- LockFreeFIFO.h is not part of this model. The FIFO is a ring of N slots with
  a read and a write cursor that holds N - 1 records. Its `AdvanceWritePtr` is
  assumed to do nothing on a full ring, because HandleMidiEvent calls it before
  checking `WriteItem`'s result. `AdvanceOnFullRingEmptiesIt` states what would
  happen otherwise.
- CoreMIDI's `MIDIPacketListAdd` is modelled as "append if it fits, else NULL":
  - Byte accounting is a 4-byte `numPackets` field plus, per packet, 10 header
    bytes and its data.
  - Packet alignment is not modelled.
  - Merging of packets that share a time stamp is not modelled, so exact packet
    counts and byte offsets of the real list are outside the model.
- MidiPacket's data array is exactly 256 bytes and its byte count is at most
  256. This is an assumption built into the packet type, and every packet the
  unit writes meets it.
- The callbacks are external code. A registration is an optional opaque
  identifier plus opaque user data, and each call is recorded in a ghost log.
  Re-entrant calls from a callback into the unit are not modelled.
- The constructor's user-data values are unspecified, because the source
  nulls only the function pointers.
- The framework's Initialize/Uninitialize are reduced to `SetInitialized`.
- SetProperty's `inElement` and `inDataSize` are ignored, as in the source.
  `inData` is taken to point at an `AUMIDIOutputCallbackStruct`.
- The OSStatus numbers in `OSStatus.Code` come from Apple's AudioUnit headers,
  not from the repository:
  - noErr is 0
  - `kAudioUnitErr_Uninitialized` is -10867
  - `kAudioUnitErr_FailedInitialization` is -10875
  - `kAudioUnitErr_InvalidScope` is -10866
  - `kAudioUnitErr_InvalidProperty` is -10879
- The `AUDIOCOMPONENT_ENTRY` factory registration (MIDIThru.cpp:26) and the
  Cocoa UI (MIDIThru_UIView.h) are left out.
- Render: the drain loop is written as the method `DrainFifo`, and its body as
  `ForwardOldest`. The early `return noErr` on a NULL iterator becomes
  `DrainFifo`'s `aborted` result, which Render tests before dispatching.
- Render: its contract does not restate the host time left in each drained
  slot. `ForwardOldest` states it for each slot.
