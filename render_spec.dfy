/**
 * What one call of MIDIThru::Render does to the MIDI path, as functions of the
 * queued records: the drain loop (DrainAt), the two listener calls that
 * follow it (Dispatch), and the properties the loop and the calls promise.
 */
module RenderSpec {
  import opened Wrappers
  import opened MidiPackets
  import opened PacketLists

  /** An AUMIDIOutputCallbackStruct: a callback that may be null, and its opaque user data. */
  datatype CallbackStruct = CallbackStruct(proc: Option<nat>, userData: nat)

  /** The AudioTimeStamp handed to Render; only its host time takes part in the MIDI path. */
  datatype AudioTimeStamp = AudioTimeStamp(hostTime: UInt64)

  /** One call of a listener: callback, its user data, the render time stamp, the bus index, the list. */
  datatype Invocation = Invocation(proc: nat, userData: nat, timeStamp: AudioTimeStamp, bus: nat, list: PacketList)

  /**
   * How a drain ended: the assembled list, how many records it took off the
   * queue, whether an add failed (the iterator became null), and whether it
   * then left through the early return, skipping the listener calls.
   */
  datatype DrainResult = DrainResult(list: PacketList, consumed: nat, overflowed: bool, aborted: bool)

  /** The packets a queue of records becomes when each is stamped with time `t`, in queue order. */
  function Restamp(q: seq<MidiPacket>, t: UInt64): (r: seq<ListPacket>)
    ensures |r| == |q|
  {
    if q == [] then [] else [ListPacket(t, WireBytes(q[0]))] + Restamp(q[1..], t)
  }

  /** Each record keeps its place and its wire bytes and takes the time stamp `t`. */
  lemma {:induction false} RestampPointwise(q: seq<MidiPacket>, t: UInt64)
    ensures forall i :: 0 <= i < |q| ==> Restamp(q, t)[i] == ListPacket(t, WireBytes(q[i]))
  {
    if q != [] {
      RestampPointwise(q[1..], t);
      assert forall i :: 1 <= i < |q| ==> Restamp(q, t)[i] == Restamp(q[1..], t)[i - 1];
    }
  }

  /** Bytes the records of a queue take in a packet list. */
  function TotalBytes(q: seq<MidiPacket>): nat {
    if q == [] then 0 else PacketHeaderBytes + q[0].length + TotalBytes(q[1..])
  }

  /** The list that holds every record of `q`, in order, stamped with `t`. */
  function Delivered(q: seq<MidiPacket>, t: UInt64): PacketList {
    PacketList(Restamp(q, t), ListHeaderBytes + TotalBytes(q))
  }

  /** The delivered list's byte count is the one MIDIPacketListAdd keeps for its packets. */
  lemma {:induction false} DeliveredAccounted(q: seq<MidiPacket>, t: UInt64)
    ensures Accounted(Delivered(q, t))
  {
    if q != [] {
      DeliveredAccounted(q[1..], t);
      PacketsBytesCons(ListPacket(t, WireBytes(q[0])), Restamp(q[1..], t));
    }
  }

  /**
   * The drain loop of Render from the point where the records before index
   * `k` of `queue` have been taken, `list` has been assembled and `iterOk`
   * says whether the iterator is non-null: stop when nothing is queued;
   * return early when the iterator is null; otherwise stamp record `k` with
   * `t`, add it, and release it whether or not the add succeeded. The
   * result's `consumed` is the number of records taken when the loop stops.
   */
  function DrainAt(queue: seq<MidiPacket>, k: nat, t: UInt64, budget: nat, list: PacketList, iterOk: bool): DrainResult
    requires k <= |queue|
    decreases |queue| - k
  {
    if k == |queue| then DrainResult(list, k, !iterOk, false)
    else if !iterOk then DrainResult(list, k, true, true)
    else
      var added := Add(list, budget, t, WireBytes(queue[k]));
      DrainAt(queue, k + 1, t, budget, added.GetOr(list), added.Some?)
  }

  /** The drain loop takes no record back and no more records than are queued. */
  lemma {:induction false} DrainTakesOnlyQueued(queue: seq<MidiPacket>, k: nat, t: UInt64, budget: nat, list: PacketList, iterOk: bool)
    requires k <= |queue|
    decreases |queue| - k
    ensures k <= DrainAt(queue, k, t, budget, list, iterOk).consumed <= |queue|
  {
    if k < |queue| && iterOk {
      var added := Add(list, budget, t, WireBytes(queue[k]));
      DrainTakesOnlyQueued(queue, k + 1, t, budget, added.GetOr(list), added.Some?);
    }
  }

  /** The whole drain of one Render call: an empty list and a non-null iterator to start with. */
  function Drain(queue: seq<MidiPacket>, t: UInt64, budget: nat): (r: DrainResult)
    ensures r.consumed <= |queue|
  {
    DrainTakesOnlyQueued(queue, 0, t, budget, EmptyList, true);
    DrainAt(queue, 0, t, budget, EmptyList, true)
  }

  /**
   * The listener calls after the loop: the host callback, then the UI
   * callback, each only when it is non-null and the list holds a packet.
   */
  function Dispatch(host: CallbackStruct, ui: CallbackStruct, ts: AudioTimeStamp, list: PacketList): seq<Invocation> {
    (if host.proc.Some? && list.NumPackets() > 0 then [Invocation(host.proc.value, host.userData, ts, 0, list)] else [])
    + (if ui.proc.Some? && list.NumPackets() > 0 then [Invocation(ui.proc.value, ui.userData, ts, 0, list)] else [])
  }

  /** Every listener call of one Render call: none after the early return. */
  function RenderCalls(queue: seq<MidiPacket>, host: CallbackStruct, ui: CallbackStruct, ts: AudioTimeStamp): seq<Invocation> {
    var r := Drain(queue, ts.hostTime, MidiPacketListSize);
    if r.aborted then [] else Dispatch(host, ui, ts, r.list)
  }

  /**
   * The drain loop keeps FIFO order and rewrites time stamps: from record `k`
   * on, the list grows by the next `n` records, in queue order, each stamped
   * with `t`.
   */
  lemma {:induction false} DrainAtOrder(queue: seq<MidiPacket>, k: nat, t: UInt64, budget: nat, list: PacketList)
    requires k <= |queue|
    decreases |queue| - k
    ensures var r := DrainAt(queue, k, t, budget, list, true);
            var n := |r.list.packets| - |list.packets|;
            && 0 <= n <= |queue| - k
            && r.list.packets == list.packets + Restamp(queue[k..k + n], t)
  {
    if k < |queue| {
      var added := Add(list, budget, t, WireBytes(queue[k]));
      if added.Some? {
        var l := added.value;
        DrainAtOrder(queue, k + 1, t, budget, l);
        var r := DrainAt(queue, k + 1, t, budget, l, true);
        var n := |r.list.packets| - |l.packets|;
        var taken := queue[k..k + n + 1];
        assert taken[0] == queue[k] && taken[1..] == queue[k + 1..k + 1 + n];
      } else {
        assert queue[k..k] == [];
      }
    } else {
      assert queue[k..k] == [];
    }
  }

  /**
   * How the drain loop ends, with `n` the number of packets it added from
   * record `k` on: every record taken is in the list except the one whose add
   * failed, and that failure is why the list stopped growing. The loop leaves
   * early only after a failed add with records still queued, and otherwise
   * takes the whole queue.
   */
  lemma {:induction false} DrainAtOutcome(queue: seq<MidiPacket>, k: nat, t: UInt64, budget: nat, list: PacketList)
    requires k <= |queue|
    decreases |queue| - k
    ensures var r := DrainAt(queue, k, t, budget, list, true);
            var n := |r.list.packets| - |list.packets|;
            && 0 <= n
            && r.consumed == k + n + (if r.overflowed then 1 else 0)
            && (r.overflowed ==> k + n < |queue| && Add(r.list, budget, t, WireBytes(queue[k + n])).None?)
            && (r.aborted <==> r.overflowed && r.consumed < |queue|)
            && (!r.aborted ==> r.consumed == |queue|)
  {
    if k < |queue| {
      var added := Add(list, budget, t, WireBytes(queue[k]));
      if added.Some? {
        DrainAtOutcome(queue, k + 1, t, budget, added.value);
      }
    }
  }

  /** The list never exceeds its budget and its byte count stays exact. */
  lemma {:induction false} DrainAtBudget(queue: seq<MidiPacket>, k: nat, t: UInt64, budget: nat, list: PacketList, iterOk: bool)
    requires k <= |queue|
    decreases |queue| - k
    ensures var r := DrainAt(queue, k, t, budget, list, iterOk);
            && (list.used <= budget ==> r.list.used <= budget)
            && (Accounted(list) ==> Accounted(r.list))
  {
    if k < |queue| && iterOk {
      var added := Add(list, budget, t, WireBytes(queue[k]));
      AddAccounting(list, budget, t, WireBytes(queue[k]));
      DrainAtBudget(queue, k + 1, t, budget, added.GetOr(list), added.Some?);
    }
  }

  /** Records that fit in what is left of the budget are all added, in order, with no overflow. */
  lemma {:induction false} DrainAtAllFits(queue: seq<MidiPacket>, k: nat, t: UInt64, budget: nat, list: PacketList)
    requires k <= |queue|
    requires list.used + TotalBytes(queue[k..]) <= budget
    decreases |queue| - k
    ensures DrainAt(queue, k, t, budget, list, true)
            == DrainResult(PacketList(list.packets + Restamp(queue[k..], t), list.used + TotalBytes(queue[k..])), |queue|, false, false)
  {
    if k < |queue| {
      var p := ListPacket(t, WireBytes(queue[k]));
      var l := PacketList(list.packets + [p], list.used + PacketHeaderBytes + queue[k].length);
      assert queue[k..][0] == queue[k] && queue[k..][1..] == queue[k + 1..];
      assert Add(list, budget, t, WireBytes(queue[k])) == Some(l);
      DrainAtAllFits(queue, k + 1, t, budget, l);
      assert list.packets + Restamp(queue[k..], t) == l.packets + Restamp(queue[k + 1..], t);
    } else {
      assert queue[k..] == [];
    }
  }

  /** A queue of event records takes at most 13 bytes per record. */
  lemma {:induction false} EventRecordsBytes(queue: seq<MidiPacket>)
    requires AllEventRecords(queue)
    ensures TotalBytes(queue) <= (PacketHeaderBytes + 3) * |queue|
  {
    if queue != [] {
      EventRecordsBytes(queue[1..]);
    }
  }

  /**
   * With the source's sizes the packet list cannot overflow: up to 32 queued
   * event records (the FIFO's slot count) of 2 or 3 bytes take at most 420 of
   * the 2048 bytes, so Render drains all of them into the list, in order,
   * stamped with the render's host time.
   */
  lemma DefaultSizesNeverOverflow(queue: seq<MidiPacket>, t: UInt64)
    requires AllEventRecords(queue) && |queue| <= 32
    ensures Drain(queue, t, MidiPacketListSize)
            == DrainResult(Delivered(queue, t), |queue|, false, false)
  {
    EventRecordsBytes(queue);
    assert queue[0..] == queue;
    DrainAtAllFits(queue, 0, t, MidiPacketListSize, EmptyList);
  }

  /**
   * The overflow quirk: when an add fails with another record queued behind
   * the failed one, the failed record is lost (consumed but not in the list),
   * and neither listener is called although the list may hold packets.
   */
  lemma OverflowBeforeLastSkipsListeners(queue: seq<MidiPacket>, host: CallbackStruct, ui: CallbackStruct, ts: AudioTimeStamp)
    requires Drain(queue, ts.hostTime, MidiPacketListSize).overflowed
    requires Drain(queue, ts.hostTime, MidiPacketListSize).consumed < |queue|
    ensures var r := Drain(queue, ts.hostTime, MidiPacketListSize);
            && r.aborted
            && r.consumed == |r.list.packets| + 1
            && RenderCalls(queue, host, ui, ts) == []
  {
    DrainAtOutcome(queue, 0, ts.hostTime, MidiPacketListSize, EmptyList);
  }

  /**
   * The listener calls: each non-null callback is called once, host first,
   * with its own user data, the render's time stamp, bus 0 and the assembled
   * list; none is called for an empty list or a null callback.
   */
  lemma DispatchCalls(host: CallbackStruct, ui: CallbackStruct, ts: AudioTimeStamp, list: PacketList)
    ensures var calls := Dispatch(host, ui, ts, list);
            && (list.NumPackets() == 0 ==> calls == [])
            && |calls| == (if list.NumPackets() > 0 then (if host.proc.Some? then 1 else 0) + (if ui.proc.Some? then 1 else 0) else 0)
            && (forall c :: c in calls ==> c.bus == 0 && c.timeStamp == ts && c.list == list)
            && (host.proc.Some? && list.NumPackets() > 0 ==> calls[0] == Invocation(host.proc.value, host.userData, ts, 0, list))
            && (ui.proc.Some? && list.NumPackets() > 0 ==> calls[|calls| - 1] == Invocation(ui.proc.value, ui.userData, ts, 0, list))
  {
  }

  /**
   * End to end for the source's sizes: every queued event reaches each
   * non-null listener in one list, in arrival order, stamped with the
   * render's host time and carrying its first 2 or 3 bytes.
   */
  lemma RenderDeliversQueue(queue: seq<MidiPacket>, host: CallbackStruct, ui: CallbackStruct, ts: AudioTimeStamp)
    requires AllEventRecords(queue) && |queue| <= 32
    ensures RenderCalls(queue, host, ui, ts) == Dispatch(host, ui, ts, Delivered(queue, ts.hostTime))
    ensures forall c, i :: c in RenderCalls(queue, host, ui, ts) && 0 <= i < |queue| ==>
              c.list.packets[i].timeStamp == ts.hostTime && c.list.packets[i].bytes == queue[i].data[..queue[i].length]
  {
    DefaultSizesNeverOverflow(queue, ts.hostTime);
    RestampPointwise(queue, ts.hostTime);
  }
}
