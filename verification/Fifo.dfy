/** utils/fifo/fifo.c: a ring of fixed-size elements laid out in one flat byte buffer. */
module Fifos {
  import opened Words

  /** The slot `k` places after `head` in a ring of `capacity` slots, written without a remainder. */
  function Slot(head: nat, k: nat, capacity: nat): (r: nat)
    requires head < capacity && k <= capacity
    ensures r < capacity
  {
    var sum := head + k;
    if sum < capacity then sum else sum - capacity
  }

  /** It is what the code's remainder computes. */
  lemma SlotIsRemainder(head: nat, k: nat, capacity: nat)
    requires head < capacity && k <= capacity
    ensures Slot(head, k, capacity) == (head + k) % capacity
  {
    var sum := head + k;
    if sum < capacity {
      DivModUnique(sum, capacity, 0, sum);
    } else {
      DivModUnique(sum, capacity, 1, sum - capacity);
    }
  }

  /** Slots lie inside the buffer. */
  lemma SlotFits(elemSize: nat, capacity: nat, slot: nat)
    requires slot < capacity
    ensures elemSize * slot + elemSize <= elemSize * capacity
  {
    MulGap(elemSize, slot, capacity);
  }

  /** Writing the bytes of one slot leaves the bytes of every other slot as they were. */
  lemma KeepsElem(before: seq<u8>, after: seq<u8>, elemSize: nat, capacity: nat, written: nat, other: nat)
    requires |before| == |after| == elemSize * capacity
    requires other < capacity && written < capacity && other != written
    requires forall b :: 0 <= b < |before| && !(elemSize * written <= b < elemSize * written + elemSize)
                         ==> after[b] == before[b]
    ensures elemSize * other + elemSize <= elemSize * capacity
    ensures after[elemSize * other..elemSize * other + elemSize] ==
            before[elemSize * other..elemSize * other + elemSize]
  {
    SlotFits(elemSize, capacity, other);
    if other < written {
      MulGap(elemSize, other, written);
    } else {
      MulGap(elemSize, written, other);
    }
  }

  class Fifo {
    // Ghost view: the queued elements, oldest first.
    ghost var contents: seq<seq<u8>>

    const capacity: nat
    const elemSize: nat
    const data: array<u8>
    var head: nat
    var tail: nat
    var count: nat

    /** Where slot `index` starts in `data`. */
    function ElemAddr(index: nat): nat {
      elemSize * index
    }

    /** The bytes stored in slot `index`. */
    ghost function Elem(index: nat): seq<u8>
      requires index < capacity && data.Length == elemSize * capacity
      reads data
    {
      SlotFits(elemSize, capacity, index);
      data[ElemAddr(index)..ElemAddr(index) + elemSize]
    }

    ghost predicate Valid()
      reads this, data
    {
      && data.Length == elemSize * capacity
      && |contents| == count <= capacity
      && (capacity == 0 ==> head == tail == 0)
      && (capacity > 0 ==>
          && head < capacity
          && tail == Slot(head, count, capacity)
          && forall k :: 0 <= k < count ==> contents[k] == Elem(Slot(head, k, capacity)))
    }

    constructor (capacity: nat, elemSize: nat)
      ensures Valid() && fresh(data)
      ensures this.capacity == capacity && this.elemSize == elemSize
      ensures contents == []
    {
      this.capacity, this.elemSize := capacity, elemSize;
      data := new u8[elemSize * capacity];
      head, tail, count := 0, 0, 0;
      contents := [];
    }

    method Empty() returns (empty: bool)
      requires Valid()
      ensures empty <==> contents == []
    {
      empty := count == 0;
    }

    method Full() returns (full: bool)
      requires Valid()
      ensures full <==> |contents| == capacity
    {
      full := count == capacity;
    }

    /** The memcpy into slot `slot`: every other slot, and every other byte, stays as it was. */
    method CopyIn(slot: nat, elem: array<u8>)
      requires slot < capacity && data.Length == elemSize * capacity && elem != data && elem.Length == elemSize
      modifies data
      ensures Elem(slot) == elem[..]
      ensures forall k: nat :: k < capacity && k != slot ==> Elem(k) == old(Elem(k))
      ensures forall b :: 0 <= b < data.Length && !(ElemAddr(slot) <= b < ElemAddr(slot) + elemSize) ==>
                data[b] == old(data[b])
    {
      SlotFits(elemSize, capacity, slot);
      var base := ElemAddr(slot);
      ghost var was := data[..];
      forall b | 0 <= b < elemSize {
        data[base + b] := elem[b];
      }
      forall k: nat | k < capacity && k != slot ensures Elem(k) == old(Elem(k)) {
        KeepsElem(was, data[..], elemSize, capacity, slot, k);
      }
    }

    /** Copies `elem` to the tail. A full fifo, which includes every fifo of capacity 0, is left alone. */
    method Put(elem: array<u8>) returns (rc: Errno)
      requires Valid() && elem != data && elem.Length == elemSize
      modifies this, data
      ensures Valid()
      ensures rc == if |old(contents)| == capacity then ENOMEM else EOK
      ensures rc == EOK ==> contents == old(contents) + [elem[..]]
      ensures rc == EOK ==>
                forall b :: 0 <= b < data.Length && !(ElemAddr(old(tail)) <= b < ElemAddr(old(tail)) + elemSize) ==>
                  data[b] == old(data[b])
      ensures rc != EOK ==> unchanged(this) && unchanged(data)
    {
      hide ElemAddr, Slot;
      var full := Full();
      if full {
        return ENOMEM;
      }
      CopyIn(tail, elem);
      forall k | 0 <= k < count ensures Slot(head, k, capacity) != tail {
        SlotsApart(k, count);
      }
      contents := contents + [elem[..]];
      tail := (tail + 1) % capacity;
      count := count + 1;
      NextSlot(head, count - 1);
      return EOK;
    }

    /** Copies the oldest element out byte for byte and removes it. An empty fifo leaves `elem` alone. */
    method Get(elem: array<u8>) returns (rc: Errno)
      requires Valid() && elem != data && elem.Length == elemSize
      modifies this, elem
      ensures Valid()
      ensures rc == if old(contents) == [] then ENOENT else EOK
      ensures rc == EOK ==> elem[..] == old(contents)[0] && contents == old(contents)[1..]
      ensures rc != EOK ==> unchanged(this) && unchanged(elem)
    {
      var empty := Empty();
      if empty {
        return ENOENT;
      }
      SlotFits(elemSize, capacity, head);
      var base := ElemAddr(head);
      forall b | 0 <= b < elemSize {
        elem[b] := data[base + b];
      }
      assert elem[..] == Elem(Slot(head, 0, capacity));
      forall k | 0 < k <= count
        ensures Slot((head + 1) % capacity, k - 1, capacity) == Slot(head, k, capacity)
      {
        Advance(head, k);
      }
      contents := contents[1..];
      head := (head + 1) % capacity;
      count := count - 1;
      return EOK;
    }

    /** Two queued positions never share a slot. */
    lemma SlotsApart(j: nat, k: nat)
      requires capacity > 0 && head < capacity && j < k < capacity
      ensures Slot(head, j, capacity) != Slot(head, k, capacity)
    {
    }

    lemma NextSlot(from: nat, k: nat)
      requires from < capacity && k < capacity
      ensures (Slot(from, k, capacity) + 1) % capacity == Slot(from, k + 1, capacity)
    {
      SlotIsRemainder(Slot(from, k, capacity), 1, capacity);
    }

    lemma Advance(from: nat, k: nat)
      requires from < capacity && 0 < k <= capacity
      ensures Slot((from + 1) % capacity, k - 1, capacity) == Slot(from, k, capacity)
    {
      NextSlot(from, 0);
    }
  }
}
