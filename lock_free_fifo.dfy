/**
 * The engine's LockFreeFIFO<MIDIPacket>, taken at its single-producer,
 * single-consumer interface in one thread: a ring of MIDIPacket slots with a
 * read cursor and a write cursor. The queued records are the slots from the
 * read cursor up to (not including) the write cursor, so a ring of N slots
 * holds at most N - 1 records. WriteItem and ReadItem name a slot (or none)
 * without moving a cursor; the caller reads and writes that slot in place;
 * AdvanceWritePtr publishes the write slot and AdvanceReadPtr releases the
 * read slot.
 */
module LockFreeFifo {
  import opened Wrappers
  import opened MidiPackets

  /** The slot after `i` in a ring of `n` slots. */
  function Next(i: nat, n: nat): (j: nat)
    requires i < n
    ensures j < n
  {
    if i + 1 == n then 0 else i + 1
  }

  /** Number of queued records between read cursor `r` and write cursor `w`. */
  function Count(r: nat, w: nat, n: nat): (c: nat)
    requires r < n && w < n
    ensures c < n
    ensures c == 0 <==> r == w
  {
    if r <= w then w - r else w + n - r
  }

  /** The slot holding the `k`-th queued record (0 is the oldest). */
  function Slot(r: nat, k: nat, n: nat): (i: nat)
    requires r < n && k < n
    ensures i < n
  {
    if r + k < n then r + k else r + k - n
  }

  /** The records queued in ring `s`, oldest first. */
  function RingContents(s: seq<MidiPacket>, r: nat, w: nat): (c: seq<MidiPacket>)
    requires r < |s| && w < |s|
    ensures |c| == Count(r, w, |s|)
  {
    if r <= w then s[r..w] else s[r..] + s[..w]
  }

  /** The `k`-th queued record is the one in slot Slot(r, k). */
  lemma RingContentsAt(s: seq<MidiPacket>, r: nat, w: nat)
    requires r < |s| && w < |s|
    ensures forall k :: 0 <= k < Count(r, w, |s|) ==> RingContents(s, r, w)[k] == s[Slot(r, k, |s|)]
  {
    if r > w {
      forall k | 0 <= k < Count(r, w, |s|)
        ensures RingContents(s, r, w)[k] == s[Slot(r, k, |s|)]
      {
        if r + k >= |s| {
          assert RingContents(s, r, w)[k] == s[..w][r + k - |s|];
        }
      }
    }
  }

  /** The ring is full exactly when the slot after the write cursor is the read cursor. */
  lemma FullRing(r: nat, w: nat, n: nat)
    requires r < n && w < n
    ensures Next(w, n) == r <==> Count(r, w, n) == n - 1
  {
  }

  /**
   * Publishing: writing record `v` into the write slot of a ring that is not
   * full and then advancing the write cursor appends `v` and leaves the queued
   * records as they were.
   */
  lemma RingPush(s: seq<MidiPacket>, r: nat, w: nat, v: MidiPacket)
    requires r < |s| && w < |s| && Next(w, |s|) != r
    ensures RingContents(s[w := v], r, Next(w, |s|)) == RingContents(s, r, w) + [v]
  {
    var n := |s|;
    var before, after := RingContents(s, r, w), RingContents(s[w := v], r, Next(w, n));
    RingContentsAt(s, r, w);
    RingContentsAt(s[w := v], r, Next(w, n));
    assert |after| == |before| + 1;
    assert Slot(r, |before|, n) == w;
    forall k | 0 <= k < |before|
      ensures after[k] == before[k]
    {
      assert Slot(r, k, n) != w;
    }
  }

  /**
   * Releasing: whatever the reader wrote into the read slot, advancing the
   * read cursor of a non-empty ring drops the oldest record and keeps the rest.
   */
  lemma RingPop(s: seq<MidiPacket>, r: nat, w: nat, v: MidiPacket)
    requires r < |s| && w < |s| && r != w
    ensures RingContents(s[r := v], Next(r, |s|), w) == RingContents(s, r, w)[1..]
  {
    var n := |s|;
    var before, after := RingContents(s, r, w), RingContents(s[r := v], Next(r, n), w);
    RingContentsAt(s, r, w);
    RingContentsAt(s[r := v], Next(r, n), w);
    assert |after| == |before| - 1;
    forall k | 0 <= k < |after|
      ensures after[k] == before[k + 1]
    {
      assert Slot(Next(r, n), k, n) == Slot(r, k + 1, n) != r;
    }
  }

  /**
   * What an unconditional write-cursor advance would do to a full ring: the
   * write cursor lands on the read cursor and every queued record vanishes.
   * The model's AdvanceWritePtr does not advance a full ring.
   */
  lemma AdvanceOnFullRingEmptiesIt(s: seq<MidiPacket>, r: nat, w: nat)
    requires r < |s| && w < |s| && Next(w, |s|) == r
    ensures |RingContents(s, r, w)| == |s| - 1
    ensures RingContents(s, r, Next(w, |s|)) == []
  {
    FullRing(r, w, |s|);
  }

  class PacketFifo {
    /** The slots, fixed in number at construction. */
    const items: array<MidiPacket>
    /** The oldest queued slot; equal to writeIndex when nothing is queued. */
    var readIndex: nat
    /** The slot the writer fills next. */
    var writeIndex: nat

    ghost predicate Valid()
      reads this
    {
      readIndex < items.Length && writeIndex < items.Length
    }

    /** The queued records, oldest first. */
    ghost function Contents(): seq<MidiPacket>
      requires Valid()
      reads this, items
    {
      RingContents(items[..], readIndex, writeIndex)
    }

    /** The most records the ring holds at once. */
    function Capacity(): nat
      reads this
    {
      if items.Length == 0 then 0 else items.Length - 1
    }

    /** A ring of `size` slots, all clear, with nothing queued. */
    constructor (size: nat)
      requires size > 0
      ensures Valid() && fresh(items) && items.Length == size
      ensures Capacity() == size - 1 && Contents() == []
    {
      items := new MidiPacket[size](_ => PacketFields(0, 0, Zeros(PacketDataSize)));
      readIndex, writeIndex := 0, 0;
    }

    /** The slot to fill next, or None when the ring is full. */
    method WriteItem() returns (slot: Option<nat>)
      requires Valid()
      ensures slot.None? <==> |Contents()| == Capacity()
      ensures slot.Some? ==> slot.value == writeIndex
    {
      FullRing(readIndex, writeIndex, items.Length);
      slot := if Next(writeIndex, items.Length) == readIndex then None else Some(writeIndex);
    }

    /**
     * Publishes the write slot. On a full ring it changes nothing: the source
     * calls it before looking at WriteItem's result, so this is the assumption
     * the model makes about the FIFO it cannot see.
     */
    method AdvanceWritePtr()
      requires Valid()
      modifies this`writeIndex
      ensures Valid()
      ensures writeIndex == if Next(old(writeIndex), items.Length) == readIndex then old(writeIndex)
                            else Next(old(writeIndex), items.Length)
      ensures |old(Contents())| < Capacity() ==> Contents() == old(Contents()) + [items[old(writeIndex)]]
      ensures |old(Contents())| == Capacity() ==> Contents() == old(Contents())
    {
      FullRing(readIndex, writeIndex, items.Length);
      if Next(writeIndex, items.Length) != readIndex {
        RingPush(items[..], readIndex, writeIndex, items[writeIndex]);
        assert items[..][writeIndex := items[writeIndex]] == items[..];
        writeIndex := Next(writeIndex, items.Length);
      }
    }

    /** The oldest queued slot, or None when nothing is queued. */
    method ReadItem() returns (slot: Option<nat>)
      requires Valid()
      ensures slot.None? <==> Contents() == []
      ensures slot.Some? ==> slot.value == readIndex && items[readIndex] == Contents()[0]
    {
      RingContentsAt(items[..], readIndex, writeIndex);
      slot := if readIndex == writeIndex then None else Some(readIndex);
    }

    /** Releases the oldest queued slot for reuse by the writer. */
    method AdvanceReadPtr()
      requires Valid() && readIndex != writeIndex
      modifies this`readIndex
      ensures Valid()
      ensures readIndex == Next(old(readIndex), items.Length)
      ensures Contents() == old(Contents())[1..]
    {
      RingPop(items[..], readIndex, writeIndex, items[readIndex]);
      assert items[..][readIndex := items[readIndex]] == items[..];
      readIndex := Next(readIndex, items.Length);
    }
  }
}
