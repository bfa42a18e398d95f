/** src/virtio/virtq.c as functions on the value of a virtqueue. The class in Virtq.dfy is proved
    against these functions, and the interleaved protocol in Protocol.dfy takes them as its atomic steps. */
module VirtqSpec {
  import opened Words
  import opened Wire

  const F_NEXT: bv16 := 1
  const F_WRITE: bv16 := 2

  datatype Desc = Desc(addr: nat, len: nat, flags: bv16, next: nat)
  datatype Extra = Extra(vaddr: nat, context: Option<nat>)
  datatype UsedElem = UsedElem(id: nat, len: nat)

  /** What a mapped DMA buffer holds. Mappings start zero-filled. */
  datatype Buffer = Blank | Request(kind: nat, gpio: nat, value: nat) | Response(status: nat, value: nat)

  const ZERO_DESC := Desc(0, 0, 0, 0)
  const ZERO_EXTRA := Extra(0, None)

  /** `mem` is the set of buffers mapped for descriptors; a buffer is named by its address. */
  datatype Vq = Vq(
    num: nat,
    desc: seq<Desc>,
    extras: seq<Extra>,
    availFlags: nat,
    availIdx: nat,
    availRing: seq<nat>,
    usedIdx: nat,
    usedRing: seq<UsedElem>,
    lastSeen: nat,
    free: seq<nat>,
    mem: map<nat, Buffer>)

  /** The outcome of the two system calls that obtain a DMA buffer. */
  datatype MapOutcome = Mapped(addr: nat) | MapFailed(err: Errno)

  predicate HasNext(d: Desc) {
    d.flags & F_NEXT != 0
  }

  predicate InTable(v: Vq, i: nat) {
    i < |v.desc| && i < |v.extras|
  }

  // ----- Well-formedness -----

  predicate LinksOk(desc: seq<Desc>) {
    forall k :: 0 <= k < |desc| ==> desc[k].next < |desc|
  }

  predicate NoDup(s: seq<nat>) {
    forall i, j :: 0 <= i < j < |s| ==> s[i] != s[j]
  }

  predicate ShapeOk(v: Vq) {
    && 0 < v.num < WORD
    && |v.desc| == |v.extras| == |v.availRing| == |v.usedRing| == v.num
    && v.availIdx < WORD && v.usedIdx < WORD && v.lastSeen < WORD
  }

  /** What every operation of virtq.c keeps, whatever its caller and the device do. */
  ghost predicate WF(v: Vq) {
    && ShapeOk(v)
    && 0 !in v.mem
    && NoDup(v.free)
    && (forall k :: 0 <= k < |v.free| ==> v.free[k] < v.num)
    && (forall i :: 0 <= i < v.num && i in v.free ==> v.extras[i].vaddr == 0)
    && LinksOk(v.desc)
  }

  /** Free entries are all zero, as they stay while callers name no descriptor that is free. */
  predicate FreeZero(v: Vq)
    requires ShapeOk(v)
  {
    forall i :: 0 <= i < v.num && i in v.free ==> v.desc[i] == Desc(0, 0, 0, 0) && v.extras[i] == Extra(0, None)
  }

  // ----- Atomic operations -----

  function TakeFree(v: Vq): Vq
    requires v.free != []
  {
    v.(free := v.free[1..])
  }

  /** fifo_put on the free list: a full list silently drops the index. */
  function ReturnFree(v: Vq, i: nat): Vq {
    if |v.free| == v.num then v else v.(free := v.free + [i])
  }

  function MapBuffer(v: Vq, b: nat): Vq {
    v.(mem := v.mem[b := Blank])
  }

  function UnmapBuffer(v: Vq, b: nat): Vq {
    v.(mem := v.mem - {b})
  }

  function FillDesc(v: Vq, i: nat, b: nat, len: nat, writable: bool): Vq
    requires InTable(v, i)
  {
    v.(extras := v.extras[i := Extra(b, None)],
       desc := v.desc[i := Desc(b, len, if writable then F_WRITE else 0, 0)])
  }

  function ClearDesc(v: Vq, i: nat): Vq
    requires InTable(v, i)
  {
    v.(extras := v.extras[i := ZERO_EXTRA], desc := v.desc[i := ZERO_DESC])
  }

  function WriteBuffer(v: Vq, b: nat, content: Buffer): Vq {
    v.(mem := v.mem[b := content])
  }

  function SetContext(v: Vq, i: nat, c: nat): Vq
    requires InTable(v, i)
  {
    v.(extras := v.extras[i := v.extras[i].(context := Some(c))])
  }

  /** The effect on the table of the first `n` iterations of the chaining loop. */
  function LinkUpTo(desc: seq<Desc>, ids: seq<nat>, n: nat): (r: seq<Desc>)
    requires n <= |ids| && forall k :: 0 <= k < |ids| ==> ids[k] < |desc|
    ensures |r| == |desc|
  {
    if n <= 1 then desc
    else
      var d := LinkUpTo(desc, ids, n - 1);
      d[ids[n - 2] := d[ids[n - 2]].(next := ids[n - 1], flags := d[ids[n - 2]].flags | F_NEXT)]
  }

  function LinkChain(desc: seq<Desc>, ids: seq<nat>): (r: seq<Desc>)
    requires ids != [] && forall k :: 0 <= k < |ids| ==> ids[k] < |desc|
    ensures |r| == |desc|
  {
    var d := LinkUpTo(desc, ids, |ids|);
    var tail := ids[|ids| - 1];
    d[tail := d[tail].(next := 0)]
  }

  function RingWrite(v: Vq, head: nat): Vq
    requires v.num > 0 && |v.availRing| == v.num
  {
    v.(availRing := v.availRing[v.availIdx % v.num := head])
  }

  function BumpAvail(v: Vq): Vq {
    v.(availIdx := Inc16(v.availIdx))
  }

  // ----- Composite operations, as one uninterrupted call performs them -----

  function AllocDesc(v: Vq, len: nat, writable: bool, os: MapOutcome): (Vq, Errno, nat)
    requires WF(v)
  {
    if v.free == [] then (v, ENOENT, 0)
    else
      var i := v.free[0];
      match os
      case MapFailed(err) => (ReturnFree(TakeFree(v), i), err, i)
      case Mapped(b) => (FillDesc(MapBuffer(TakeFree(v), b), i, b, len, writable), EOK, i)
  }

  function FreeDesc(v: Vq, i: nat): (Vq, Errno)
    requires InTable(v, i)
  {
    var b := v.extras[i].vaddr;
    if b !in v.mem then (v, MinusOne)
    else (ReturnFree(ClearDesc(UnmapBuffer(v, b), i), i), if |v.free| == v.num then ENOMEM else EOK)
  }

  function PutDescChain(v: Vq, ids: seq<nat>): Vq
    requires ShapeOk(v) && ids != [] && forall k :: 0 <= k < |ids| ==> ids[k] < v.num
  {
    BumpAvail(RingWrite(v.(desc := LinkChain(v.desc, ids)), ids[0]))
  }

  /** The first `count` descriptors met by following NEXT links from `i`. */
  function Walk(desc: seq<Desc>, i: nat, count: nat): (r: seq<nat>)
    requires i < |desc| && LinksOk(desc)
    ensures |r| <= count
    ensures forall k :: 0 <= k < |r| ==> r[k] < |desc|
    decreases count
  {
    if count == 0 then []
    else if HasNext(desc[i]) then [i] + Walk(desc, desc[i].next, count - 1)
    else [i]
  }

  /** Whether following NEXT links from `i` reaches a tail within `count` descriptors. */
  predicate EndsWithin(desc: seq<Desc>, i: nat, count: nat)
    requires i < |desc| && LinksOk(desc)
    decreases count
  {
    count > 0 && (HasNext(desc[i]) ==> EndsWithin(desc, desc[i].next, count - 1))
  }

  /** The head stored in the next used element; the 32-bit id is cut to 16 bits. */
  function NextUsedHead(v: Vq): nat
    requires ShapeOk(v)
  {
    v.usedRing[v.lastSeen % v.num].id % WORD
  }

  /** The device names descriptors of this queue. */
  predicate UsedIdOk(v: Vq)
    requires ShapeOk(v)
  {
    v.usedIdx != v.lastSeen ==> NextUsedHead(v) < v.num
  }

  /** New queue value, return code, and the entries written to the output array. */
  function GetDescChain(v: Vq, count: nat): (Vq, Errno, seq<nat>)
    requires ShapeOk(v) && LinksOk(v.desc) && UsedIdOk(v)
  {
    if v.usedIdx == v.lastSeen then (v, ENOENT, [])
    else
      var head := NextUsedHead(v);
      var ids := Walk(v.desc, head, count);
      if EndsWithin(v.desc, head, count) then (v.(lastSeen := Inc16(v.lastSeen)), EOK, ids)
      else (v, ENOMEM, ids)
  }

  // ----- Chains -----

  /** The table links exactly `ids`, in order, and stops after them. */
  ghost predicate IsChain(desc: seq<Desc>, ids: seq<nat>) {
    && ids != []
    && (forall k :: 0 <= k < |ids| ==> ids[k] < |desc|)
    && (forall k :: 0 <= k < |ids| - 1 ==> HasNext(desc[ids[k]]) && desc[ids[k]].next == ids[k + 1])
    && !HasNext(desc[ids[|ids| - 1]])
  }

  lemma FlagFacts(flags: bv16)
    ensures (flags | F_NEXT) & F_NEXT != 0
    ensures (0 as bv16) & F_NEXT == 0
    ensures F_WRITE & F_NEXT == 0 && F_NEXT & F_WRITE == 0
    ensures F_NEXT & F_NEXT != 0 && F_WRITE & F_WRITE != 0
    ensures 0 | F_NEXT == F_NEXT
    ensures GoesOn(F_NEXT) && !DeviceWrites(F_NEXT)
    ensures !GoesOn(F_WRITE) && DeviceWrites(F_WRITE)
    ensures !GoesOn(0) && !DeviceWrites(0)
  {
  }

  /** The chaining loop touches only the flags and links of the listed descriptors. */
  lemma {:induction false} LinkUpToFrame(desc: seq<Desc>, ids: seq<nat>, n: nat, i: nat)
    requires n <= |ids| && i < |desc|
    requires forall k :: 0 <= k < |ids| ==> ids[k] < |desc|
    requires forall k :: 0 <= k < n - 1 ==> ids[k] != i
    ensures LinkUpTo(desc, ids, n)[i] == desc[i]
  {
    if n > 1 {
      LinkUpToFrame(desc, ids, n - 1, i);
    }
  }

  lemma {:induction false} LinkUpToLinks(desc: seq<Desc>, ids: seq<nat>, n: nat, k: nat)
    requires n <= |ids| && NoDup(ids) && k < n - 1
    requires forall k :: 0 <= k < |ids| ==> ids[k] < |desc|
    ensures HasNext(LinkUpTo(desc, ids, n)[ids[k]]) && LinkUpTo(desc, ids, n)[ids[k]].next == ids[k + 1]
  {
    FlagFacts(LinkUpTo(desc, ids, n - 1)[ids[n - 2]].flags);
    if k < n - 2 {
      LinkUpToLinks(desc, ids, n - 1, k);
    }
  }

  /** Putting distinct descriptors builds their chain exactly when the last one's NEXT flag was clear:
      the code resets the tail's link but not its flag. */
  lemma LinkChainExact(desc: seq<Desc>, ids: seq<nat>)
    requires ids != [] && NoDup(ids)
    requires forall k :: 0 <= k < |ids| ==> ids[k] < |desc|
    ensures IsChain(LinkChain(desc, ids), ids) <==> !HasNext(desc[ids[|ids| - 1]])
  {
    var d, tail := LinkUpTo(desc, ids, |ids|), ids[|ids| - 1];
    LinkUpToFrame(desc, ids, |ids|, tail);
    forall k | 0 <= k < |ids| - 1
      ensures HasNext(LinkChain(desc, ids)[ids[k]]) && LinkChain(desc, ids)[ids[k]].next == ids[k + 1]
    {
      LinkUpToLinks(desc, ids, |ids|, k);
      assert ids[k] != tail;
    }
  }

  lemma LinkChainFrame(desc: seq<Desc>, ids: seq<nat>, i: nat)
    requires ids != [] && i < |desc| && i !in ids
    requires forall k :: 0 <= k < |ids| ==> ids[k] < |desc|
    ensures LinkChain(desc, ids)[i] == desc[i]
  {
    LinkUpToFrame(desc, ids, |ids|, i);
  }

  lemma {:induction false} LinkUpToLinksOk(desc: seq<Desc>, ids: seq<nat>, n: nat)
    requires n <= |ids| && LinksOk(desc)
    requires forall k :: 0 <= k < |ids| ==> ids[k] < |desc|
    ensures LinksOk(LinkUpTo(desc, ids, n))
  {
    if n > 1 {
      LinkUpToLinksOk(desc, ids, n - 1);
    }
  }

  /** Reading a chain back: the walk returns it in order, cut to `count`, and reaches its end iff `count` covers it. */
  lemma {:induction false} WalkOfChain(desc: seq<Desc>, ids: seq<nat>, count: nat)
    requires LinksOk(desc) && IsChain(desc, ids)
    ensures EndsWithin(desc, ids[0], count) <==> |ids| <= count
    ensures Walk(desc, ids[0], count) == if |ids| <= count then ids else ids[..count]
    decreases count
  {
    if count == 0 {
    } else if |ids| == 1 {
      assert ids == [ids[0]];
    } else {
      var rest := ids[1..];
      assert IsChain(desc, rest) by {
        forall k | 0 <= k < |rest| - 1
          ensures HasNext(desc[rest[k]]) && desc[rest[k]].next == rest[k + 1]
        {
          assert rest[k] == ids[k + 1];
        }
      }
      assert HasNext(desc[ids[0]]) && desc[ids[0]].next == rest[0];
      WalkOfChain(desc, rest, count - 1);
      assert ids == [ids[0]] + rest;
      if count < |ids| {
        assert ids[..count] == [ids[0]] + rest[..count - 1];
      }
    }
  }

  /** Putting a pair and then its first descriptor alone, with no free in between, goes wrong: the flag of the first
      put is still set, and the second chain runs on. */
  lemma TailFlagSurvives(v: Vq, i: nat, j: nat)
    requires WF(v) && i < v.num && j < v.num && i != j && !HasNext(v.desc[j])
    ensures var w := PutDescChain(v, [i, j]);
            && WF(w) && IsChain(w.desc, [i, j]) && HasNext(w.desc[i])
            && WF(PutDescChain(w, [i])) && !IsChain(PutDescChain(w, [i]).desc, [i])
  {
    PutKeepsWF(v, [i, j]);
    LinkChainExact(v.desc, [i, j]);
    var w := PutDescChain(v, [i, j]);
    assert [i, j][0] == i && HasNext(w.desc[[i, j][0]]);
    PutKeepsWF(w, [i]);
    LinkChainExact(w.desc, [i]);
  }

  /** Such a queue: two descriptors in use, none free. */
  lemma TailFlagWitness() returns (v: Vq)
    ensures WF(v) && v.num == 2 && v.free == [] && HasNext(v.desc[0])
    ensures !IsChain(PutDescChain(v, [0]).desc, [0])
  {
    var filled := [Desc(1, 8, 0, 0), Desc(2, 2, F_WRITE, 0)];
    var start := Vq(2, filled, [Extra(1, None), Extra(2, None)], 0, 0, [0, 0], 0, [UsedElem(0, 0), UsedElem(0, 0)], 0,
        [],
                    map[1 := Blank, 2 := Blank]);
    FlagFacts(0);
    TailFlagSurvives(start, 0, 1);
    v := PutDescChain(start, [0, 1]);
  }

  // ----- Any number of operations on other chains -----

  datatype Op =
    | OpAlloc(len: nat, writable: bool, os: MapOutcome)
    | OpFree(i: nat)
    | OpPut(ids: seq<nat>)
    | OpGet(count: nat)
    | OpSetContext(i: nat, c: nat)
    | OpDevice(usedIdx: nat, usedRing: seq<UsedElem>, mem: map<nat, Buffer>)

  /** The operation is one its caller may make, and it does not name a descriptor of `chain`. */
  ghost predicate Permitted(v: Vq, op: Op, chain: seq<nat>)
    requires WF(v)
  {
    match op
    case OpAlloc(_, _, os) => (os.Mapped? ==> os.addr != 0 && os.addr !in v.mem) && (os.MapFailed? ==> os.err != EOK)
    case OpFree(i) => i < v.num && i !in chain
    case OpPut(ids) => ids != [] && forall k :: 0 <= k < |ids| ==> ids[k] < v.num && ids[k] !in chain
    case OpGet(_) => UsedIdOk(v)
    case OpSetContext(i, _) => i < v.num
    case OpDevice(idx, ring, mem) => idx < WORD && |ring| == v.num && mem.Keys == v.mem.Keys
  }

  ghost function Apply(v: Vq, op: Op): (r: Vq)
    requires WF(v) && Permitted(v, op, [])
    ensures WF(r)
  {
    match op
    case OpAlloc(len, writable, os) => AllocKeepsWF(v, len, writable, os); AllocDesc(v, len, writable, os).0
    case OpFree(i) => FreeKeepsWF(v, i); FreeDesc(v, i).0
    case OpPut(ids) => PutKeepsWF(v, ids); PutDescChain(v, ids)
    case OpGet(count) => GetDescChain(v, count).0
    case OpSetContext(i, c) => SetContext(v, i, c)
    case OpDevice(idx, ring, mem) => v.(usedIdx := idx, usedRing := ring, mem := mem)
  }

  lemma PermittedWithout(v: Vq, op: Op, chain: seq<nat>)
    requires WF(v) && Permitted(v, op, chain)
    ensures Permitted(v, op, [])
  {
  }

  /** The indices below `num`. */
  ghost function Range(num: nat): (r: set<nat>)
    ensures forall k: nat :: k in r <==> k < num
    ensures |r| == num
  {
    if num == 0 then {} else Range(num - 1) + {num - 1}
  }

  /** A free list with no duplicates that misses an index of the table is not full. */
  lemma NotFull(free: seq<nat>, num: nat, i: nat)
    requires NoDup(free) && i < num && i !in free
    requires forall k :: 0 <= k < |free| ==> free[k] < num
    ensures |free| < num
  {
    var used := set k | 0 <= k < |free| :: free[k];
    DistinctSize(free);
    assert used <= Range(num) - {i};
    SubsetSize(used, Range(num) - {i});
  }

  lemma {:induction false} DistinctSize(s: seq<nat>)
    requires NoDup(s)
    ensures |set k | 0 <= k < |s| :: s[k]| == |s|
  {
    var elems := set k | 0 <= k < |s| :: s[k];
    if s == [] {
      assert elems == {};
    } else {
      var init, last := s[..|s| - 1], s[|s| - 1];
      DistinctSize(init);
      var before := set k | 0 <= k < |init| :: init[k];
      assert elems == before + {last} by {
        forall x | x in elems ensures x in before + {last} {
          var k :| 0 <= k < |s| && s[k] == x;
          if k < |init| { assert init[k] == x; }
        }
        forall x | x in before ensures x in elems {
          var k :| 0 <= k < |init| && init[k] == x;
          assert s[k] == x;
        }
      }
      assert last !in before;
    }
  }

  lemma {:induction false} SubsetSize(a: set<nat>, b: set<nat>)
    requires a <= b
    ensures |a| <= |b|
  {
    assert b == a + (b - a);
  }

  lemma AllocKeepsWF(v: Vq, len: nat, writable: bool, os: MapOutcome)
    requires WF(v) && Permitted(v, OpAlloc(len, writable, os), [])
    ensures WF(AllocDesc(v, len, writable, os).0)
    ensures var w := AllocDesc(v, len, writable, os).0;
            forall i :: 0 <= i < v.num && i !in v.free ==> w.desc[i] == v.desc[i] && w.extras[i] == v.extras[i]
  {
    if v.free != [] {
      var i := v.free[0];
      var rest := v.free[1..];
      assert v.free == [i] + rest;
      NotFull(rest, v.num, i);
    }
  }

  lemma FreeKeepsWF(v: Vq, i: nat)
    requires WF(v) && i < v.num
    ensures WF(FreeDesc(v, i).0)
    ensures FreeDesc(v, i).1 == if v.extras[i].vaddr in v.mem then EOK else MinusOne
    ensures forall j :: 0 <= j < v.num && j != i ==> FreeDesc(v, i).0.desc[j] == v.desc[j]
  {
    if v.extras[i].vaddr in v.mem {
      assert i !in v.free;
      NotFull(v.free, v.num, i);
    }
  }

  lemma PutKeepsWF(v: Vq, ids: seq<nat>)
    requires WF(v) && ids != []
    requires forall k :: 0 <= k < |ids| ==> ids[k] < v.num
    ensures WF(PutDescChain(v, ids))
    ensures forall i :: 0 <= i < v.num && i !in ids ==> PutDescChain(v, ids).desc[i] == v.desc[i]
  {
    LinkUpToLinksOk(v.desc, ids, |ids|);
    forall i | 0 <= i < v.num && i !in ids
      ensures LinkChain(v.desc, ids)[i] == v.desc[i]
    {
      LinkChainFrame(v.desc, ids, i);
    }
  }

  /** Every permitted operation keeps the queue well formed and leaves every other live chain readable. */
  lemma StepKeepsChain(v: Vq, op: Op, chain: seq<nat>)
    requires WF(v) && Permitted(v, op, chain)
    requires forall k :: 0 <= k < |chain| ==> chain[k] < v.num && chain[k] !in v.free
    ensures Permitted(v, op, [])
    ensures forall k :: 0 <= k < |chain| ==> Apply(v, op).desc[chain[k]] == v.desc[chain[k]]
    ensures forall k :: 0 <= k < |chain| ==> chain[k] !in Apply(v, op).free
    ensures Apply(v, op).num == v.num
  {
    PermittedWithout(v, op, chain);
    match op
    case OpAlloc(len, writable, os) =>
      AllocKeepsWF(v, len, writable, os);
    case OpFree(i) =>
      FreeKeepsWF(v, i);
    case OpPut(ids) =>
      PutKeepsWF(v, ids);
    case OpGet(_) =>
    case OpSetContext(_, _) =>
    case OpDevice(_, _, _) =>
  }

  ghost predicate AllPermitted(v: Vq, ops: seq<Op>, chain: seq<nat>)
    requires WF(v)
    decreases |ops|
  {
    ops != [] ==>
      && Permitted(v, ops[0], chain)
      && (PermittedWithout(v, ops[0], chain); AllPermitted(Apply(v, ops[0]), ops[1..], chain))
  }

  ghost function ApplyAll(v: Vq, ops: seq<Op>, chain: seq<nat>): (r: Vq)
    requires WF(v) && AllPermitted(v, ops, chain)
    ensures WF(r)
    decreases |ops|
  {
    if ops == [] then v
    else
      PermittedWithout(v, ops[0], chain);
      ApplyAll(Apply(v, ops[0]), ops[1..], chain)
  }

  lemma {:induction false} RunKeepsChain(v: Vq, ops: seq<Op>, chain: seq<nat>)
    requires WF(v) && AllPermitted(v, ops, chain)
    requires forall k :: 0 <= k < |chain| ==> chain[k] < v.num && chain[k] !in v.free
    ensures ApplyAll(v, ops, chain).num == v.num
    ensures forall k :: 0 <= k < |chain| ==> ApplyAll(v, ops, chain).desc[chain[k]] == v.desc[chain[k]]
    decreases |ops|
  {
    if ops != [] {
      PermittedWithout(v, ops[0], chain);
      StepKeepsChain(v, ops[0], chain);
      RunKeepsChain(Apply(v, ops[0]), ops[1..], chain);
    }
  }

  /** The round trip of a chain: put `ids`, let anything happen to other chains, then get it back. With room
      for it the get returns exactly `ids`; without, it fails and changes nothing but the output array. */
  lemma ChainRoundTrip(v: Vq, ids: seq<nat>, ops: seq<Op>, count: nat)
    requires WF(v) && ids != [] && NoDup(ids)
    requires forall k :: 0 <= k < |ids| ==> ids[k] < v.num && ids[k] !in v.free
    requires !HasNext(v.desc[ids[|ids| - 1]])
    requires WF(PutDescChain(v, ids)) && AllPermitted(PutDescChain(v, ids), ops, ids)
    requires var w := ApplyAll(PutDescChain(v, ids), ops, ids);
             w.usedIdx != w.lastSeen && NextUsedHead(w) == ids[0] && UsedIdOk(w)
    ensures var w := ApplyAll(PutDescChain(v, ids), ops, ids);
            GetDescChain(w, count) ==
            if |ids| <= count then (w.(lastSeen := Inc16(w.lastSeen)), EOK, ids)
            else (w, ENOMEM, ids[..count])
  {
    var p := PutDescChain(v, ids);
    LinkChainExact(v.desc, ids);
    RunKeepsChain(p, ops, ids);
    var w := ApplyAll(p, ops, ids);
    assert IsChain(w.desc, ids) by {
      assert forall k :: 0 <= k < |ids| ==> w.desc[ids[k]] == p.desc[ids[k]];
    }
    WalkOfChain(w.desc, ids, count);
  }
}
