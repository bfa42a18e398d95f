/** src/virtio/virtq.c: the driver's virtqueue object. Locks are not modelled here, a method is one call that
    nothing interrupts; Protocol.dfy takes the same operations apart. Each method is proved against the
    function of the same name in VirtqSpec. */
module Virtqs {
  import opened Words
  import opened Wire
  import opened VirtqSpec
  import Spec = VirtqSpec
  import opened Fifos

  class Virtq {
    const num: u16
    const desc: array<Desc>
    const extras: array<Extra>
    const availRing: array<nat>
    const usedRing: array<UsedElem>
    const freeDescs: Fifo
    var availFlags: u16
    var availIdx: u16
    var usedIdx: u16
    var lastSeen: u16
    var mem: map<nat, Buffer>

    // Ghost view of the free-descriptor fifo: the indices its bytes encode.
    ghost var free: seq<nat>

    ghost function Repr(): set<object> {
      {this, desc, extras, availRing, usedRing, freeDescs, freeDescs.data}
    }

    ghost function View(): Vq
      reads Repr()
    {
      Vq(num, desc[..], extras[..], availFlags, availIdx, availRing[..], usedIdx, usedRing[..], lastSeen, free, mem)
    }

    ghost predicate FreeEncoded()
      reads this, freeDescs
    {
      && |freeDescs.contents| == |free|
      && forall k :: 0 <= k < |free| ==> free[k] < WORD && freeDescs.contents[k] == Le16(free[k])
    }

    ghost predicate Valid()
      reads Repr()
    {
      && freeDescs.Valid() && freeDescs.capacity == num && freeDescs.elemSize == 2
      && availRing as object != freeDescs.data as object
      && FreeEncoded()
      && WF(View())
    }

    lemma Fields()
      ensures View().num == num && View().free == free && View().mem == mem
      ensures View().usedIdx == usedIdx && View().lastSeen == lastSeen
    {
    }

    constructor (size: u16, fifo: Fifo)
      requires 0 < size && fifo.Valid() && fifo.capacity == size && fifo.elemSize == 2
      requires |fifo.contents| == size && forall k :: 0 <= k < size ==> fifo.contents[k] == Le16(k)
      ensures Valid() && fresh(Repr() - {fifo, fifo.data}) && freeDescs == fifo
      ensures View() == Empty(size)
    {
      hide Fifo.Valid, WF;
      num := size;
      desc := new Desc[size](_ => ZERO_DESC);
      extras := new Extra[size](_ => ZERO_EXTRA);
      availRing := new nat[size](_ => 0);
      usedRing := new UsedElem[size](_ => UsedElem(0, 0));
      freeDescs := fifo;
      availFlags, availIdx, usedIdx, lastSeen := 0, 0, 0, 0;
      mem := map[];
      free := seq(size, k => k);
      new;
      EmptyWF(size);
      assert View() == Empty(size);
    }

    // ----- The free list -----

    method TakeFree() returns (rc: Errno, idx: nat)
      requires Valid()
      modifies this`free, freeDescs
      ensures freeDescs.Valid() && FreeEncoded()
      ensures old(free) == [] ==> rc == ENOENT && free == old(free)
      ensures old(free) != [] ==> rc == EOK && idx == old(free)[0] && free == old(free)[1..]
    {
      var elem := new u8[2];
      rc := freeDescs.Get(elem);
      idx := 0;
      if rc == EOK {
        assert elem[..] == [elem[0], elem[1]];
        idx := Unle16([elem[0], elem[1]]);
        Unle16Le16(free[0]);
        free := free[1..];
      }
    }

    method ReturnFree(idx: nat) returns (rc: Errno)
      requires freeDescs.Valid() && freeDescs.elemSize == 2 && FreeEncoded() && idx < WORD
      modifies this`free, freeDescs, freeDescs.data
      ensures freeDescs.Valid() && FreeEncoded()
      ensures rc == if |old(free)| == freeDescs.capacity then ENOMEM else EOK
      ensures free == if |old(free)| == freeDescs.capacity then old(free) else old(free) + [idx]
    {
      var elem := new u8[2];
      elem[0], elem[1] := idx % 0x100, idx / 0x100;
      assert elem[..] == Le16(idx);
      rc := freeDescs.Put(elem);
      if rc == EOK {
        free := free + [idx];
      }
    }

    // ----- Descriptors -----

    method AllocDesc(len: nat, writable: bool, os: MapOutcome) returns (rc: Errno, idx: nat)
      requires Valid() && Permitted(View(), OpAlloc(len, writable, os), [])
      modifies Repr()
      ensures Valid()
      ensures View() == Spec.AllocDesc(old(View()), len, writable, os).0
      ensures rc == Spec.AllocDesc(old(View()), len, writable, os).1
      ensures rc != ENOENT ==> idx == Spec.AllocDesc(old(View()), len, writable, os).2
    {
      ghost var v := View();
      AllocKeepsWF(v, len, writable, os);
      rc, idx := TakeFree();
      if rc != EOK {
        return;
      }
      match os
      case MapFailed(err) =>
        var _ := ReturnFree(idx);
        rc := err;
      case Mapped(b) =>
        mem := mem[b := Blank];
        extras[idx] := Extra(b, None);
        desc[idx] := Desc(b, len, if writable then F_WRITE else 0, 0);
        assert desc[..] == v.desc[idx := desc[idx]];
        assert extras[..] == v.extras[idx := extras[idx]];
    }

    /** A descriptor with no mapped buffer, so every free one, is refused with munmap's own -1 and nothing changes. */
    method FreeDesc(idx: nat) returns (rc: Errno)
      requires Valid() && idx < num
      modifies Repr()
      ensures Valid()
      ensures View() == Spec.FreeDesc(old(View()), idx).0 && rc == Spec.FreeDesc(old(View()), idx).1
      ensures rc == if old(View().extras[idx].vaddr in View().mem) then EOK else MinusOne
    {
      ghost var v := View();
      FreeKeepsWF(v, idx);
      if extras[idx].vaddr !in mem {
        return MinusOne;
      }
      mem := mem - {extras[idx].vaddr};
      extras[idx] := ZERO_EXTRA;
      desc[idx] := ZERO_DESC;
      assert desc[..] == v.desc[idx := ZERO_DESC];
      assert extras[..] == v.extras[idx := ZERO_EXTRA];
      rc := ReturnFree(idx);
    }

    method SetDescContext(idx: nat, context: Option<nat>) returns (rc: Errno)
      requires Valid()
      modifies extras
      ensures Valid()
      ensures rc == if context.None? || idx >= num then EINVAL else EOK
      ensures View() == if rc == EOK then SetContext(old(View()), idx, context.value) else old(View())
    {
      if context.None? || idx >= num {
        return EINVAL;
      }
      extras[idx] := extras[idx].(context := context);
      assert extras[..] == old(extras[..])[idx := extras[idx]];
      return EOK;
    }

    method GetDescVaddr(idx: nat) returns (rc: Errno, vaddr: nat)
      requires Valid()
      ensures rc == if idx < num then EOK else EINVAL
      ensures rc == EOK ==> vaddr == View().extras[idx].vaddr
    {
      if idx >= num {
        return EINVAL, 0;
      }
      return EOK, extras[idx].vaddr;
    }

    method GetDescContext(idx: nat) returns (rc: Errno, context: Option<nat>)
      requires Valid()
      ensures rc == if idx < num then EOK else EINVAL
      ensures rc == EOK ==> context == View().extras[idx].context
    {
      if idx >= num {
        return EINVAL, None;
      }
      return EOK, extras[idx].context;
    }

    /** The driver stores into a mapped buffer. */
    method StoreBuffer(b: nat, content: Buffer)
      requires Valid() && b in mem
      modifies this`mem
      ensures Valid() && View() == WriteBuffer(old(View()), b, content)
    {
      mem := mem[b := content];
    }

    // ----- Chains -----

    /** The chaining loop and the reset of the tail's link. */
    method LinkDescs(ids: array<nat>)
      requires Valid() && ids.Length > 0 && ids !in Repr()
      requires forall k :: 0 <= k < ids.Length ==> ids[k] < num
      modifies desc
      ensures desc[..] == LinkChain(old(desc[..]), ids[..])
    {
      hide WF, Fifo.Valid;
      SizesOf();
      ghost var was, chain := desc[..], ids[..];
      var n := 0;
      while n < ids.Length
        invariant n <= ids.Length && ids[..] == chain
        invariant desc[..] == LinkUpTo(was, chain, n)
      {
        if n > 0 {
          var prev := ids[n - 1];
          desc[prev] := desc[prev].(next := ids[n], flags := desc[prev].flags | F_NEXT);
          assert desc[..] == LinkUpTo(was, chain, n)[prev := desc[prev]];
        }
        n := n + 1;
      }
      var tail := ids[n - 1];
      desc[tail] := desc[tail].(next := 0);
      assert desc[..] == LinkUpTo(was, chain, |chain|)[tail := desc[tail]];
    }

    lemma SizesOf()
      requires Valid()
      ensures 0 < num && desc.Length == extras.Length == availRing.Length == usedRing.Length == num
      ensures LinksOk(desc[..])
    {
    }

    method PutDescChain(ids: array<nat>) returns (rc: Errno)
      requires Valid() && ids.Length > 0 && ids !in Repr()
      requires forall k :: 0 <= k < ids.Length ==> ids[k] < num
      modifies desc, availRing, this`availIdx
      ensures Valid()
      ensures View() == Spec.PutDescChain(old(View()), ids[..]) && rc == EOK
    {
      ghost var v := View();
      PutKeepsWF(v, ids[..]);
      SizesOf();
      LinkDescs(ids);
      availRing[availIdx % num] := ids[0];
      assert availRing[..] == v.availRing[v.availIdx % v.num := ids[0]];
      availIdx := Inc16(availIdx);
      assert View() == Spec.PutDescChain(v, ids[..]);
      return EOK;
    }

    /** The loop that follows a chain from `head` into `out`; its counter is a uint16_t. */
    method WalkChain(head: nat, count: nat, out: array<nat>) returns (n: nat)
      requires head < desc.Length && LinksOk(desc[..]) && count < WORD && count <= out.Length && out !in Repr()
      modifies out
      ensures n <= count && (n == count <==> !EndsWithin(desc[..], head, count))
      ensures |Walk(desc[..], head, count)| == if n < count then n + 1 else count
      ensures out[..|Walk(desc[..], head, count)|] == Walk(desc[..], head, count)
      ensures forall k :: |Walk(desc[..], head, count)| <= k < out.Length ==> out[k] == old(out[k])
    {
      hide Walk, EndsWithin, HasNext;
      ghost var table := desc[..];
      ghost var walk, ends := Walk(table, head, count), EndsWithin(table, head, count);
      var i: nat := head;
      n := 0;
      while n < count
        invariant n <= count && desc[..] == table && i < |table|
        invariant walk == out[..n] + Walk(table, i, count - n)
        invariant ends <==> EndsWithin(table, i, count - n)
        invariant forall k :: n <= k < out.Length ==> out[k] == old(out[k])
      {
        ghost var before := out[..n];
        WalkStep(table, i, count - n);
        out[n] := i;
        assert out[..n + 1] == before + [i];
        if !HasNext(desc[i]) {
          return;
        }
        i := desc[i].next;
        n := n + 1;
      }
      WalkStops(table, i);
    }

    /** `out` receives the descriptors met, whether or not the chain fits. */
    method GetDescChain(count: nat, out: array<nat>) returns (rc: Errno, got: nat)
      requires Valid() && UsedIdOk(View()) && out !in Repr()
      requires count < WORD && count <= out.Length
      modifies this`lastSeen, out
      ensures Valid()
      ensures View() == Spec.GetDescChain(old(View()), count).0 && rc == Spec.GetDescChain(old(View()), count).1
      ensures var ids := Spec.GetDescChain(old(View()), count).2;
              && |ids| <= count
              && out[..|ids|] == ids
              && (forall k :: |ids| <= k < out.Length ==> out[k] == old(out[k]))
              && got == if rc == EOK then |ids| else count
    {
      hide Fifo.Valid, Walk, EndsWithin;
      SizesOf();
      if usedIdx == lastSeen {
        return ENOENT, count;
      }
      var n := WalkChain(usedRing[lastSeen % num].id % WORD, count, out);
      if n == count {
        return ENOMEM, count;
      }
      lastSeen := Inc16(lastSeen);
      return EOK, n + 1;
    }
  }

  /** One iteration of the walk. */
  lemma WalkStep(desc: seq<Desc>, i: nat, count: nat)
    requires i < |desc| && LinksOk(desc) && count > 0
    ensures HasNext(desc[i]) ==>
              desc[i].next < |desc| && Walk(desc, i, count) == [i] + Walk(desc, desc[i].next, count - 1)
    ensures HasNext(desc[i]) ==> (EndsWithin(desc, i, count) <==> EndsWithin(desc, desc[i].next, count - 1))
    ensures !HasNext(desc[i]) ==> Walk(desc, i, count) == [i] && EndsWithin(desc, i, count)
  {
  }

  lemma WalkStops(desc: seq<Desc>, i: nat)
    requires i < |desc| && LinksOk(desc)
    ensures Walk(desc, i, 0) == [] && !EndsWithin(desc, i, 0)
  {
  }

  /** What virtq_create leaves: every descriptor free in index order, both rings at 0. */
  ghost function Empty(size: nat): Vq {
    Vq(size, seq(size, _ => ZERO_DESC), seq(size, _ => ZERO_EXTRA), 0, 0, seq(size, _ => 0), 0,
       seq(size, _ => UsedElem(0, 0)), 0, seq(size, k => k), map[])
  }

  lemma EmptyWF(size: nat)
    requires 0 < size < WORD
    ensures WF(Empty(size))
  {
  }

  /** A count as a uint16_t holds it. */
  function Wrapped(k: nat): (r: u16)
    ensures k < WORD ==> r == k
  {
    k % WORD
  }

  lemma IncIsWrapped(k: nat)
    ensures Inc16(Wrapped(k)) == Wrapped(k + 1)
  {
  }

  /** The loop that fills the free list. Its counter is a uint16_t while its bound is a size_t: with a bound
      that does not fit it wraps around and goes on until the fifo is full. */
  method FillFreeList(fifo: Fifo, size: nat) returns (filled: bool)
    requires fifo.Valid() && fifo.capacity == size && fifo.elemSize == 2 && fifo.contents == []
    modifies fifo, fifo.data
    ensures fifo.Valid()
    ensures filled <==> size < 0x1_0000
    ensures filled ==> |fifo.contents| == size && forall k :: 0 <= k < size ==> fifo.contents[k] == Le16(k)
  {
    hide Fifo.Valid, Wrapped, Inc16;
    var elem := new u8[2];
    var i: u16 := 0;
    while i < size
      invariant fifo.Valid() && |fifo.contents| <= size
      invariant i == Wrapped(|fifo.contents|)
      invariant forall k :: 0 <= k < |fifo.contents| ==> fifo.contents[k] == Le16(Wrapped(k))
      decreases size - |fifo.contents|
    {
      elem[0], elem[1] := i % 0x100, i / 0x100;
      assert elem[..] == Le16(i);
      var rc := fifo.Put(elem);
      if rc != EOK {
        return false;
      }
      IncIsWrapped(|fifo.contents| - 1);
      i := Inc16(i);
    }
    return true;
  }

  /** virtq_create once its memory is mapped (`os` is the first system error, EOK if none). A size that does not
      fit a uint16_t is reported as success although no queue was made: the error path returns the code of the
      last call that worked. */
  method Create(size: nat, os: Errno) returns (rc: Errno, vq: Virtq?)
    requires size > 0
    ensures rc == os
    ensures vq != null <==> os == EOK && size < 0x1_0000
    ensures vq != null ==> fresh(vq.Repr()) && vq.Valid() && vq.View() == Empty(size)
  {
    hide Fifo.Valid, Virtq.Valid, Virtq.View;
    if os != EOK {
      return os, null;
    }
    var fifo := new Fifo(size, 2);
    var filled := FillFreeList(fifo, size);
    if !filled {
      return EOK, null;
    }
    vq := new Virtq(size, fifo);
    rc := EOK;
  }
}
