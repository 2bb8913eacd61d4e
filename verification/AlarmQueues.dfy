/** The bounded ring queues between the frame thread, the periodic task and the application,
    and the frame buffers they own. */
module AlarmQueues {
  import opened Wrappers
  import opened Apmx
  import opened AlarmModel
  import opened FrameBuffers

  lemma Modulo(x: nat, b: nat)
    requires x < 2 * b
    ensures x % b == if x < b then x else x - b
  {
    var q, r := x / b, x % b;
    assert x == b * q + r;
    if q >= 2 { Twice(b, q); }
    assert q == 0 || q == 1;
  }

  lemma Twice(b: nat, q: nat)
    requires q >= 2
    ensures b * q >= 2 * b
  {
    assert b * q == 2 * b + b * (q - 2);
  }

  /** Indexes and fill count of a ring of `capacity` slots; `mutex` tells whether its mutex exists. */
  class Accountant {
    const capacity: nat
    var count: nat
    var readIndex: nat
    var writeIndex: nat
    var mutex: bool

    ghost predicate Valid()
      reads this
    {
      0 < capacity <= 0xffff && count <= capacity && readIndex < capacity && writeIndex == Slot(count)
    }

    /** The slot `i` places behind the oldest entry. */
    ghost function Slot(i: nat): int
      reads this`readIndex
    {
      if readIndex + i < capacity then readIndex + i else readIndex + i - capacity
    }

    constructor (capacity: nat)
      requires 0 < capacity <= 0xffff
      ensures Valid() && this.capacity == capacity && count == 0 && !mutex
    {
      this.capacity := capacity;
      count, readIndex, writeIndex, mutex := 0, 0, 0, false;
    }

    method MutexCreate()
      requires Valid()
      modifies this`mutex
      ensures Valid() && mutex
    {
      if !mutex { mutex := true; }
    }

    method MutexDestroy()
      requires Valid()
      modifies this`mutex
      ensures Valid() && !mutex
    {
      if mutex { mutex := false; }
    }

    method Reset()
      requires Valid()
      modifies this`count, this`readIndex, this`writeIndex
      ensures Valid() && count == 0
    {
      count, readIndex, writeIndex := 0, 0, 0;
    }

    /** Clear the record. */
    method Clear()
      requires Valid()
      modifies this
      ensures Valid() && count == 0 && !mutex
    {
      count, readIndex, writeIndex, mutex := 0, 0, 0, false;
    }

    /** Claim the slot behind the newest entry, unless the ring is full. */
    method GetWriteIndex() returns (slot: Option<nat>)
      requires Valid()
      modifies this`count, this`writeIndex
      ensures Valid()
      ensures old(count) < capacity ==> slot == Some(old(Slot(count))) && count == old(count) + 1
      ensures old(count) == capacity ==> slot == None && count == old(count)
    {
      if count >= capacity {
        return None;
      }
      slot := Some(writeIndex);
      writeIndex := writeIndex + 1;
      if writeIndex >= capacity {
        writeIndex := 0;
      }
      count := count + 1;
    }

    /** Give up the slot of the oldest entry, unless the ring is empty. */
    method GetReadIndex() returns (slot: Option<nat>)
      requires Valid()
      modifies this`count, this`readIndex
      ensures Valid()
      ensures old(count) > 0 ==> slot == Some(old(readIndex)) && count == old(count) - 1
                                 && Slot(capacity - 1) == old(readIndex)
                                 && forall i: nat :: i < capacity - 1 ==> Slot(i) == old(Slot(i + 1))
      ensures old(count) == 0 ==> slot == None && count == 0 && readIndex == old(readIndex)
    {
      if count == 0 {
        return None;
      }
      slot := Some(readIndex);
      readIndex := readIndex + 1;
      if readIndex >= capacity {
        readIndex := 0;
      }
      count := count - 1;
    }

    /** The C code's relation between the two indexes. */
    lemma IndexesModulo()
      requires Valid()
      ensures writeIndex == (readIndex + count) % capacity
    {
      Modulo(readIndex + count, capacity);
    }
  }

  /** Alarms of one priority waiting to be sent; `contents` is the queue as a sequence. */
  class SendQueue {
    const acc: Accountant
    const items: array<Alarm>
    ghost var contents: seq<Alarm>

    ghost predicate Valid()
      reads this, acc, items
    {
      && acc.Valid() && items.Length == acc.capacity
      && |contents| == acc.count
      && (!acc.mutex ==> contents == [])
      && forall i: nat :: i < |contents| ==> items[acc.Slot(i)] == contents[i]
    }

    ghost function View(): Queue<Alarm>
      reads this, acc
    {
      if acc.mutex then Present(contents) else Missing
    }

    constructor (capacity: nat)
      requires 0 < capacity <= 0xffff
      ensures Valid() && View() == Missing && fresh({this, acc, items}) && acc.capacity == capacity
    {
      acc := new Accountant(capacity);
      items := new Alarm[capacity](_ => Alarm(0, 0, 0, 0, 0, 0, 0, []));
      contents := [];
    }

    /** Empty an available queue. */
    method Reset()
      requires Valid()
      modifies this, acc, items
      ensures Valid() && View() == (if old(View()).Present? then Present([]) else Missing)
    {
      if acc.mutex {
        acc.Reset();
        forall i | 0 <= i < items.Length { items[i] := Alarm(0, 0, 0, 0, 0, 0, 0, []); }
        contents := [];
      }
    }

    method Create()
      requires Valid()
      modifies acc
      ensures Valid() && View() == Present(contents)
    {
      acc.MutexCreate();
    }

    method Destroy()
      requires Valid() && contents == []
      modifies acc
      ensures Valid() && View() == Missing
    {
      acc.MutexDestroy();
    }

    method ResetAndDestroy()
      requires Valid()
      modifies this, acc, items
      ensures Valid() && View() == Missing
    {
      Reset();
      Destroy();
    }

    /** Clear the record of a queue, the pointer to its mutex included. */
    method Clear()
      requires Valid()
      modifies this, acc, items
      ensures Valid() && View() == Missing
    {
      acc.Clear();
      forall i | 0 <= i < items.Length { items[i] := Alarm(0, 0, 0, 0, 0, 0, 0, []); }
      contents := [];
    }

    method Post(alarm: Alarm) returns (ok: bool)
      requires Valid()
      modifies this, acc, items
      ensures Valid()
      ensures ok <==> old(View()).Present? && |old(contents)| < acc.capacity
      ensures View() == if ok then Present(old(contents) + [alarm]) else old(View())
    {
      ok := false;
      if acc.mutex {
        var slot := acc.GetWriteIndex();
        if slot.Some? {
          items[slot.value] := alarm;
          contents := contents + [alarm];
          ok := true;
        }
      }
    }

    method Fetch() returns (alarm: Option<Alarm>)
      requires Valid()
      modifies this, acc, items
      ensures Valid()
      ensures contents == (if old(contents) == [] then [] else old(contents)[1..])
      ensures alarm == (if old(contents) == [] then None else Some(old(contents)[0]))
      ensures View().Present? == old(View()).Present?
    {
      alarm := None;
      if acc.mutex {
        var slot := acc.GetReadIndex();
        if slot.Some? {
          alarm := Some(items[slot.value]);
          contents := contents[1..];
        }
      }
    }
  }

  /** The buffers of queued frames. */
  ghost function Buffers(msgs: seq<RxMessage>): set<nat> {
    if msgs == [] then {} else {msgs[0].buf} + Buffers(msgs[1..])
  }

  lemma {:induction false} BuffersAre(msgs: seq<RxMessage>)
    ensures forall b :: b in Buffers(msgs) <==> exists i :: 0 <= i < |msgs| && msgs[i].buf == b
  {
    if msgs != [] {
      BuffersAre(msgs[1..]);
      forall b | exists i :: 0 <= i < |msgs| && msgs[i].buf == b ensures b in Buffers(msgs) {
        var i :| 0 <= i < |msgs| && msgs[i].buf == b;
        if i > 0 { assert msgs[1..][i - 1].buf == b; }
      }
      forall b | b in Buffers(msgs) ensures exists i :: 0 <= i < |msgs| && msgs[i].buf == b {
        if b in Buffers(msgs[1..]) {
          var i :| 0 <= i < |msgs[1..]| && msgs[1..][i].buf == b;
          assert msgs[i + 1].buf == b;
        } else {
          assert msgs[0].buf == b;
        }
      }
    }
  }

  lemma {:induction false} BuffersAppend(msgs: seq<RxMessage>, m: RxMessage)
    ensures Buffers(msgs + [m]) == Buffers(msgs) + {m.buf}
  {
    if msgs == [] {
      assert ([] + [m])[1..] == [];
    } else {
      BuffersAppend(msgs[1..], m);
      assert (msgs + [m])[1..] == msgs[1..] + [m];
    }
  }

  /** The oldest frame has a buffer of its own. */
  lemma BuffersDrop(msgs: seq<RxMessage>)
    requires msgs != [] && Distinct(msgs)
    ensures Buffers(msgs[1..]) == Buffers(msgs) - {msgs[0].buf} && msgs[0].buf in Buffers(msgs)
  {
    BuffersAre(msgs[1..]);
  }

  ghost predicate Distinct(msgs: seq<RxMessage>) {
    forall i, j :: 0 <= i < j < |msgs| ==> msgs[i].buf != msgs[j].buf
  }

  /** Received frames of one priority; a slot outside the live window holds NULL. */
  class ReceiveQueue {
    const acc: Accountant
    const items: array<Option<RxMessage>>
    ghost var contents: seq<RxMessage>

    ghost predicate Valid()
      reads this, acc, items
    {
      && acc.Valid() && items.Length == acc.capacity
      && |contents| == acc.count
      && (!acc.mutex ==> contents == [])
      && Distinct(contents)
      && (forall i: nat :: i < |contents| ==> items[acc.Slot(i)] == Some(contents[i]))
      && (forall i: nat :: |contents| <= i < acc.capacity ==> items[acc.Slot(i)] == None)
    }

    ghost function View(): Queue<RxMessage>
      reads this, acc
    {
      if acc.mutex then Present(contents) else Missing
    }

    constructor (capacity: nat)
      requires 0 < capacity <= 0xffff
      ensures Valid() && View() == Missing && fresh({this, acc, items}) && acc.capacity == capacity
    {
      acc := new Accountant(capacity);
      items := new Option<RxMessage>[capacity](_ => None);
      contents := [];
    }

    method Create()
      requires Valid()
      modifies acc
      ensures Valid() && View() == Present(contents)
    {
      acc.MutexCreate();
    }

    method Destroy()
      requires Valid() && contents == []
      modifies acc
      ensures Valid() && View() == Missing
    {
      acc.MutexDestroy();
    }

    /** Clear the record of an empty queue, the pointer to its mutex included. */
    method Clear()
      requires Valid() && contents == []
      modifies this, acc, items
      ensures Valid() && View() == Missing && contents == []
    {
      acc.Clear();
      forall i | 0 <= i < items.Length { items[i] := None; }
    }

    method Post(msg: RxMessage) returns (ok: bool)
      requires Valid() && msg.buf !in Buffers(contents)
      modifies this, acc, items
      ensures Valid()
      ensures ok <==> old(View()).Present? && |old(contents)| < acc.capacity
      ensures View() == if ok then Present(old(contents) + [msg]) else old(View())
    {
      ok := false;
      if acc.mutex {
        var slot := acc.GetWriteIndex();
        if slot.Some? {
          BuffersAre(contents);
          items[slot.value] := Some(msg);
          contents := contents + [msg];
          ok := true;
        }
      }
    }

    method Fetch() returns (msg: Option<RxMessage>)
      requires Valid()
      modifies this, acc, items
      ensures Valid()
      ensures contents == (if old(contents) == [] then [] else old(contents)[1..])
      ensures msg == (if old(contents) == [] then None else Some(old(contents)[0]))
      ensures View().Present? == old(View()).Present?
    {
      msg := None;
      if acc.mutex {
        var slot := acc.GetReadIndex();
        if slot.Some? {
          msg := items[slot.value];
          items[slot.value] := None;
          contents := contents[1..];
        }
      }
    }

    /** Empty an available queue and free exactly the buffers of the frames in it. */
    method Reset(pool: BufferPool)
      requires Valid() && pool.Valid() && Buffers(contents) <= pool.live
      modifies this, acc, items, pool
      ensures Valid() && pool.Valid()
      ensures pool.live == old(pool.live) - Buffers(old(contents))
      ensures View() == (if old(View()).Present? then Present([]) else Missing)
    {
      if !acc.mutex { return; }
      SlotsHoldContents();
      acc.Reset();
      contents := [];
      FreeSlots(items, pool);
    }

    method ResetAndDestroy(pool: BufferPool)
      requires Valid() && pool.Valid() && Buffers(contents) <= pool.live
      modifies this, acc, items, pool
      ensures Valid() && pool.Valid() && View() == Missing && contents == []
      ensures pool.live == old(pool.live) - Buffers(old(contents))
    {
      Reset(pool);
      Destroy();
    }

    /** The slots hold exactly the queued frames. */
    lemma SlotsHoldContents()
      requires Valid()
      ensures SlotBuffers(items[..]) == Buffers(contents)
      ensures DistinctSlots(items[..])
    {
      BuffersAre(contents);
      SlotBuffersAre(items[..]);
      forall s: nat | s < items.Length ensures
          s == acc.Slot(Place(s)) && Place(s) < items.Length
          && (items[s].Some? ==> Place(s) < |contents| && items[s].value == contents[Place(s)]) {
        if Place(s) >= |contents| { assert items[acc.Slot(Place(s))] == None; }
      }
      forall b | b in Buffers(contents) ensures b in SlotBuffers(items[..]) {
        var i: nat :| i < |contents| && contents[i].buf == b;
        assert items[..][acc.Slot(i)] == Some(contents[i]);
      }
    }

    /** How far slot `s` is behind the oldest entry. */
    ghost function Place(s: nat): nat
      requires s < acc.capacity && acc.readIndex < acc.capacity
      reads acc
    {
      if s >= acc.readIndex then s - acc.readIndex else s + acc.capacity - acc.readIndex
    }
  }

  /** The buffers held in the slots of a ring. */
  ghost function SlotBuffers(slots: seq<Option<RxMessage>>): set<nat> {
    if slots == [] then {} else
    var last := slots[|slots| - 1];
    SlotBuffers(slots[..|slots| - 1]) + (if last.Some? then {last.value.buf} else {})
  }

  lemma {:induction false} SlotBuffersAre(slots: seq<Option<RxMessage>>)
    ensures forall b :: b in SlotBuffers(slots) <==>
                        exists i :: 0 <= i < |slots| && slots[i].Some? && slots[i].value.buf == b
  {
    if slots != [] {
      var init, last := slots[..|slots| - 1], slots[|slots| - 1];
      SlotBuffersAre(init);
      forall b | b in SlotBuffers(slots)
        ensures exists i :: 0 <= i < |slots| && slots[i].Some? && slots[i].value.buf == b {
        if b in SlotBuffers(init) {
          var i :| 0 <= i < |init| && init[i].Some? && init[i].value.buf == b;
          assert slots[i] == init[i];
        } else {
          assert last.Some? && last.value.buf == b;
        }
      }
      forall i | 0 <= i < |slots| && slots[i].Some? ensures slots[i].value.buf in SlotBuffers(slots) {
        if i < |init| { assert init[i] == slots[i]; }
      }
    }
  }

  ghost predicate DistinctSlots(slots: seq<Option<RxMessage>>) {
    forall i, j :: 0 <= i < j < |slots| && slots[i].Some? && slots[j].Some? ==> slots[i].value.buf != slots[j].value.buf
  }

  /** What is left of `live` after the frames before slot `ix` are freed. */
  ghost function Remaining(live: set<nat>, slots: seq<Option<RxMessage>>, ix: nat): set<nat>
    requires ix <= |slots|
  {
    live - SlotBuffers(slots[..ix])
  }

  lemma NextSlot(live: set<nat>, slots: seq<Option<RxMessage>>, ix: nat)
    requires ix < |slots| && DistinctSlots(slots) && SlotBuffers(slots) <= live
    ensures slots[ix].Some? ==> slots[ix].value.buf in Remaining(live, slots, ix)
    ensures slots[ix].Some? ==> Remaining(live, slots, ix + 1) == Remaining(live, slots, ix) - {slots[ix].value.buf}
    ensures slots[ix].None? ==> Remaining(live, slots, ix + 1) == Remaining(live, slots, ix)
  {
    SlotBuffersAre(slots);
    SlotBuffersAre(slots[..ix]);
    assert slots[..ix + 1][..ix] == slots[..ix];
  }

  /** Free the frame in every occupied slot and set the slot to NULL. */
  method FreeSlots(items: array<Option<RxMessage>>, pool: BufferPool)
    requires pool.Valid() && DistinctSlots(items[..]) && SlotBuffers(items[..]) <= pool.live
    modifies items, pool
    ensures pool.Valid() && pool.live == old(pool.live) - SlotBuffers(old(items[..]))
    ensures forall k :: 0 <= k < items.Length ==> items[k] == None
  {
    ghost var slots, was := items[..], pool.live;
    var ix := 0;
    while ix < items.Length
      invariant 0 <= ix <= items.Length
      invariant pool.Valid() && pool.live == Remaining(was, slots, ix)
      invariant forall k :: 0 <= k < ix ==> items[k] == None
      invariant forall k :: ix <= k < items.Length ==> items[k] == slots[k]
    {
      NextSlot(was, slots, ix);
      if items[ix].Some? {
        pool.Free(items[ix].value.buf);
        items[ix] := None;
      }
      ix := ix + 1;
    }
    assert slots[..ix] == slots;
  }
}
