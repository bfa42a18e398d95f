/** src/gpio/gpio.c as functions on the value of the queue and of the callers' contexts. */
module GpioSpec {
  import opened Words
  import opened Wire
  import opened VirtqSpec
  import opened Protocol

  // ----- Sending a request -----

  /** The buffers the system hands out are new and are not at address 0. */
  ghost predicate OsOk(v: Vq, os0: MapOutcome, os1: MapOutcome) {
    && (os0.Mapped? ==> os0.addr != 0 && os0.addr !in v.mem)
    && (os0.MapFailed? ==> os0.err != EOK)
    && (os1.Mapped? ==> os1.addr != 0 && os1.addr !in v.mem && (os0.Mapped? ==> os1.addr != os0.addr))
    && (os1.MapFailed? ==> os1.err != EOK)
  }

  /** virtio_gpio_request with context `c`; `os0` and `os1` are the outcomes of mapping the two buffers. */
  ghost function SendRequest(v: Vq, req: Buffer, c: nat, os0: MapOutcome, os1: MapOutcome): (Vq, Errno)
    requires WF(v) && OsOk(v, os0, os1)
  {
    AllocKeepsWF(v, REQUEST_SIZE, false, os0);
    var (v1, rc0, i0) := AllocDesc(v, REQUEST_SIZE, false, os0);
    if rc0 != EOK then (v1, rc0)
    else
      AllocKeepsWF(v1, RESPONSE_SIZE, true, os1);
      var (v2, rc1, i1) := AllocDesc(v1, RESPONSE_SIZE, true, os1);
      if rc1 != EOK then (FreeDesc(v2, i0).0, rc1)
      else
        var v3 := WriteBuffer(v2, v2.extras[i0].vaddr, req);
        var v4 := SetContext(v3, i0, c);
        (PutDescChain(v4, [i0, i1]), EOK)
  }

  /** When a request goes through. */
  predicate Succeeds(v: Vq, os0: MapOutcome, os1: MapOutcome) {
    |v.free| >= 2 && os0.Mapped? && os1.Mapped?
  }

  /** Same queue but for the order of the free list; whatever was left in the entry of a free descriptor may be gone. */
  ghost predicate SameButRotated(v: Vq, v': Vq)
    requires WF(v)
  {
    && v' == v.(free := v'.free, desc := v'.desc, extras := v'.extras)
    && multiset(v'.free) == multiset(v.free)
    && |v'.desc| == |v'.extras| == v.num
    && (forall i :: 0 <= i < v.num && i !in v.free ==> v'.desc[i] == v.desc[i] && v'.extras[i] == v.extras[i])
    && (FreeZero(v) ==> v'.desc == v.desc && v'.extras == v.extras)
  }

  /** A request that fails, at whichever step, leaves the queue as it found it. */
  lemma FailedRequestRollsBack(v: Vq, req: Buffer, c: nat, os0: MapOutcome, os1: MapOutcome)
    requires WF(v) && OsOk(v, os0, os1) && !Succeeds(v, os0, os1)
    ensures var (v', rc) := SendRequest(v, req, c, os0, os1);
            && rc != EOK && WF(v') && SameButRotated(v, v')
            && (v.free == [] ==> rc == ENOENT)
            && (os0.Mapped? && |v.free| == 1 ==> rc == ENOENT)
            && (v.free != [] && os0.MapFailed? ==> rc == os0.err)
            && (os0.Mapped? && |v.free| >= 2 ==> rc == os1.err)
  {
    if v.free != [] {
      if os0.MapFailed? {
        Rotates(v.free);
        AllocKeepsWF(v, REQUEST_SIZE, false, os0);
        NotFull(v.free[1..], v.num, v.free[0]) by { TailMisses(v.free); }
      } else {
        SecondFails(v, req, c, os0, os1);
      }
    }
  }

  lemma TailMisses(free: seq<nat>)
    requires free != [] && NoDup(free)
    ensures NoDup(free[1..]) && free[0] !in free[1..]
  {
  }

  lemma Rotates(free: seq<nat>)
    requires free != []
    ensures multiset(free[1..] + [free[0]]) == multiset(free)
  {
    assert free == [free[0]] + free[1..];
  }

  /** Freeing the descriptor that was allocated first undoes the allocation, whatever the order of the rest. */
  lemma FreeUndoesAlloc(v: Vq, b: nat, f: seq<nat>)
    requires WF(v) && v.free != [] && b != 0 && b !in v.mem
    requires multiset(f) == multiset(v.free[1..])
    requires WF(FillDesc(MapBuffer(TakeFree(v), b), v.free[0], b, REQUEST_SIZE, false).(free := f))
    ensures var v2 := FillDesc(MapBuffer(TakeFree(v), b), v.free[0], b, REQUEST_SIZE, false).(free := f);
            WF(FreeDesc(v2, v.free[0]).0) && SameButRotated(v, FreeDesc(v2, v.free[0]).0)
  {
    var i0 := v.free[0];
    var v2 := FillDesc(MapBuffer(TakeFree(v), b), i0, b, REQUEST_SIZE, false).(free := f);
    FreeKeepsWF(v2, i0);
    assert i0 !in f;
    NotFull(f, v.num, i0);
    var v' := FreeDesc(v2, i0).0;
    assert v'.desc == v.desc[i0 := ZERO_DESC] && v'.extras == v.extras[i0 := ZERO_EXTRA];
    assert FreeZero(v) ==> v'.desc == v.desc && v'.extras == v.extras;
    assert v'.mem == v.mem;
    assert v.free == [i0] + v.free[1..];
  }

  /** The first descriptor was obtained, the second was not: freeing the first undoes everything. */
  lemma SecondFails(v: Vq, req: Buffer, c: nat, os0: MapOutcome, os1: MapOutcome)
    requires WF(v) && OsOk(v, os0, os1) && v.free != [] && os0.Mapped? && (|v.free| == 1 || os1.MapFailed?)
    ensures var (v', rc) := SendRequest(v, req, c, os0, os1);
            && rc == (if |v.free| == 1 then ENOENT else os1.err) && WF(v') && SameButRotated(v, v')
  {
    hide WF, SameButRotated;
    AllocKeepsWF(v, REQUEST_SIZE, false, os0);
    var v1 := AllocDesc(v, REQUEST_SIZE, false, os0).0;
    AllocKeepsWF(v1, RESPONSE_SIZE, true, os1);
    RotatedRest(v, v1, os1);
    var v2 := AllocDesc(v1, RESPONSE_SIZE, true, os1).0;
    FreeUndoesAlloc(v, os0.addr, v2.free);
  }

  /** A second allocation that fails at most rotates the free list. */
  lemma RotatedRest(v: Vq, v1: Vq, os1: MapOutcome)
    requires WF(v) && v.free != [] && WF(v1) && v1.free == v.free[1..] && v1.num == v.num
    requires |v.free| == 1 || os1.MapFailed?
    ensures var v2 := AllocDesc(v1, RESPONSE_SIZE, true, os1).0;
            v2 == v1.(free := v2.free) && multiset(v2.free) == multiset(v.free[1..])
  {
    if v1.free != [] {
      TailMisses(v1.free);
      NotFull(v1.free[1..], v1.num, v1.free[0]);
      Rotates(v1.free);
    }
  }

  /** The device is shown all bytes of a request, to read and go on, then room for all bytes of a response, to
      write and stop. */
  ghost predicate ShowsRequest(d0: Desc, d1: Desc) {
    && (forall kind: u16, gpio: u16, value: u16 :: d0.len == |RequestBytes(kind, gpio, value)|)
    && GoesOn(d0.flags) && !DeviceWrites(d0.flags)
    && (forall status: u8, value: u8 :: d1.len == |ResponseBytes(status, value)|)
    && !GoesOn(d1.flags) && DeviceWrites(d1.flags)
  }

  /** A request that goes through moves exactly two descriptors from the free list to a new chain at the end of
      the available ring: the request, readable by the device and carrying the context, then room for the
      response, writable. Nothing else changes. */
  lemma RequestPublishes(v: Vq, req: Buffer, c: nat, os0: MapOutcome, os1: MapOutcome)
    requires WF(v) && OsOk(v, os0, os1) && Succeeds(v, os0, os1)
    ensures v.num > 0
    ensures var (v', rc) := SendRequest(v, req, c, os0, os1);
            var i0, i1 := v.free[0], v.free[1];
            && rc == EOK && WF(v')
            && v'.free == v.free[2..] && i0 !in v'.free && i1 !in v'.free
            && v'.availIdx == Inc16(v.availIdx)
            && v'.availRing == v.availRing[v.availIdx % v.num := i0]
            && IsChain(v'.desc, [i0, i1])
            && v'.extras[i0] == Extra(os0.addr, Some(c)) && v'.extras[i1] == Extra(os1.addr, None)
            && v'.desc[i0] == Desc(os0.addr, REQUEST_SIZE, F_NEXT, i1)
            && v'.desc[i1] == Desc(os1.addr, RESPONSE_SIZE, F_WRITE, 0)
            && ShowsRequest(v'.desc[i0], v'.desc[i1])
            && v'.mem == v.mem[os0.addr := req][os1.addr := Blank]
            && (forall j :: 0 <= j < v.num && j != i0 && j != i1 ==>
                   v'.desc[j] == v.desc[j] && v'.extras[j] == v.extras[j])
            && v'.usedIdx == v.usedIdx && v'.usedRing == v.usedRing && v'.lastSeen == v.lastSeen
  {
    hide IsChain, HasNext;
    FilledPair(v, req, c, os0, os1);
    var v4 := Filled(v, req, c, os0, os1);
    FlagFacts(0);
    PublishPair(v4, v.free[0], v.free[1]);
  }

  /** The queue of a request just before its chain is put. */
  ghost function Filled(v: Vq, req: Buffer, c: nat, os0: MapOutcome, os1: MapOutcome): Vq
    requires WF(v) && OsOk(v, os0, os1) && Succeeds(v, os0, os1)
  {
    AllocKeepsWF(v, REQUEST_SIZE, false, os0);
    var (v1, _, i0) := AllocDesc(v, REQUEST_SIZE, false, os0);
    var (v2, _, _) := AllocDesc(v1, RESPONSE_SIZE, true, os1);
    SetContext(WriteBuffer(v2, os0.addr, req), i0, c)
  }

  /** A successful allocation, in full. */
  lemma AllocTakesFirst(v: Vq, len: nat, writable: bool, os: MapOutcome)
    requires WF(v) && v.free != [] && os.Mapped? && os.addr != 0 && os.addr !in v.mem
    ensures var (v', rc, i) := AllocDesc(v, len, writable, os);
            && rc == EOK && i == v.free[0] && WF(v') && i < v.num
            && v'.free == v.free[1..] && i !in v'.free && v'.mem == v.mem[os.addr := Blank]
            && v' == v.(desc := v.desc[i := Desc(os.addr, len, if writable then F_WRITE else 0, 0)],
                        extras := v.extras[i := Extra(os.addr, None)], mem := v'.mem, free := v'.free)
  {
    AllocKeepsWF(v, len, writable, os);
    TailMisses(v.free);
  }

  lemma FilledPair(v: Vq, req: Buffer, c: nat, os0: MapOutcome, os1: MapOutcome)
    requires WF(v) && OsOk(v, os0, os1) && Succeeds(v, os0, os1)
    ensures SendRequest(v, req, c, os0, os1) == (PutDescChain(Filled(v, req, c, os0, os1), [v.free[0], v.free[1]]), EOK)
    ensures var v4 := Filled(v, req, c, os0, os1); var i0, i1 := v.free[0], v.free[1];
            && WF(v4) && i0 != i1 && i0 < v.num && i1 < v.num && i0 !in v4.free && i1 !in v4.free
            && v4 == v.(desc := v4.desc, extras := v4.extras, mem := v4.mem, free := v.free[2..])
            && !HasNext(v4.desc[i1])
            && v4.extras[i0] == Extra(os0.addr, Some(c)) && v4.extras[i1] == Extra(os1.addr, None)
            && v4.desc[i0] == Desc(os0.addr, REQUEST_SIZE, 0, 0)
                 && v4.desc[i1] == Desc(os1.addr, RESPONSE_SIZE, F_WRITE, 0)
            && v4.mem == v.mem[os0.addr := req][os1.addr := Blank]
            && (forall j :: 0 <= j < v.num && j != i0 && j != i1 ==>
                   v4.desc[j] == v.desc[j] && v4.extras[j] == v.extras[j])
  {
    hide AllocDesc;
    AllocTakesFirst(v, REQUEST_SIZE, false, os0);
    var (v1, _, i0) := AllocDesc(v, REQUEST_SIZE, false, os0);
    AllocTakesFirst(v1, RESPONSE_SIZE, true, os1);
    var (v2, _, i1) := AllocDesc(v1, RESPONSE_SIZE, true, os1);
    assert v1.free[0] == v.free[1] && v2.free == v.free[2..];
    FlagFacts(0);
    TaggedKeepsWF(v2, i0, os0.addr, req, c);
    assert Filled(v, req, c, os0, os1).mem == v.mem[os0.addr := req][os1.addr := Blank];
  }

  lemma TaggedKeepsWF(v: Vq, i: nat, b: nat, req: Buffer, c: nat)
    requires WF(v) && i < v.num && i !in v.free && b != 0
    ensures WF(SetContext(WriteBuffer(v, b, req), i, c))
  {
  }

  /** Chaining and publishing two filled descriptors. */
  lemma PublishPair(v: Vq, i0: nat, i1: nat)
    requires WF(v) && i0 < v.num && i1 < v.num && i0 != i1 && i0 !in v.free && i1 !in v.free
    requires !HasNext(v.desc[i1])
    ensures var v' := PutDescChain(v, [i0, i1]);
            && WF(v') && IsChain(v'.desc, [i0, i1])
            && v'.desc[i0] == v.desc[i0].(next := i1, flags := v.desc[i0].flags | F_NEXT)
            && v'.desc[i1] == v.desc[i1].(next := 0)
            && (forall j :: 0 <= j < v.num && j != i0 && j != i1 ==> v'.desc[j] == v.desc[j])
  {
    PutKeepsWF(v, [i0, i1]);
    LinkChainExact(v.desc, [i0, i1]);
    assert LinkUpTo(v.desc, [i0, i1], 1) == v.desc;
    assert LinkUpTo(v.desc, [i0, i1], 2) == v.desc[i0 := v.desc[i0].(next := i1, flags := v.desc[i0].flags | F_NEXT)];
  }

  // ----- Draining the used ring -----

  /** What the interrupt handler works on: the queue and the contexts its callers left on their stacks. */
  datatype Gpio = Gpio(vq: Vq, contexts: map<nat, Context>)

  /** Used elements published and not collected. */
  function PendingCount(v: Vq): nat {
    Distance16(v.lastSeen, v.usedIdx)
  }

  /** The head in the `j`-th pending used element. */
  function HeadAt(v: Vq, j: nat): nat
    requires ShapeOk(v)
  {
    v.usedRing[(v.lastSeen + j) % WORD % v.num].id % WORD
  }

  /** One completed request: its two descriptors, its context, its two buffers. */
  datatype Entry = Entry(head: nat, tail: nat, c: nat, b0: nat, b1: nat)

  predicate IsEntry(g: Gpio, head: nat, e: Entry)
    requires ShapeOk(g.vq)
  {
    var v := g.vq;
    && e.head == head && e.head < v.num && e.tail < v.num && e.head != e.tail
    && HasNext(v.desc[e.head]) && v.desc[e.head].next == e.tail && !HasNext(v.desc[e.tail])
    && v.extras[e.head] == Extra(e.b0, Some(e.c)) && v.extras[e.tail].vaddr == e.b1
    && e.b0 in v.mem && e.b1 in v.mem && e.b0 != e.b1
    && e.c in g.contexts
  }

  predicate Apart(e: Entry, f: Entry) {
    && e.head != f.head && e.head != f.tail && e.tail != f.head && e.tail != f.tail
    && e.c != f.c
    && e.b0 != f.b0 && e.b0 != f.b1 && e.b1 != f.b0 && e.b1 != f.b1
  }

  /** `es` lists the pending completions in publication order; no two share a descriptor, a buffer or a context. */
  ghost predicate Ready(g: Gpio, es: seq<Entry>) {
    && WF(g.vq)
    && |es| == PendingCount(g.vq)
    && (forall j :: 0 <= j < |es| ==> IsEntry(g, HeadAt(g.vq, j), es[j]))
    && (forall j, k :: 0 <= j < k < |es| ==> Apart(es[j], es[k]))
  }

  /** The callback: it copies the response into the context and posts its semaphore. */
  function Callback(contexts: map<nat, Context>, c: nat, response: Buffer): map<nat, Context>
    requires c in contexts
  {
    contexts[c := Context(StatusOf(response), ValueOf(response), contexts[c].sem + 1)]
  }

  /** One round of the drain loop on a completion. */
  function HandleOne(g: Gpio, e: Entry): Gpio
    requires ShapeOk(g.vq) && IsEntry(g, e.head, e)
  {
    var v := g.vq.(lastSeen := Inc16(g.vq.lastSeen));
    var contexts := Callback(g.contexts, e.c, v.mem[e.b1]);
    Gpio(FreeDesc(FreeDesc(v, e.head).0, e.tail).0, contexts)
  }

  /** The front of the used ring reads back as the first pending entry. */
  lemma FrontReads(g: Gpio, es: seq<Entry>)
    requires Ready(g, es) && es != []
    ensures g.vq.usedIdx != g.vq.lastSeen && UsedIdOk(g.vq)
    ensures IsEntry(g, es[0].head, es[0])
    ensures GetDescChain(g.vq, CHAIN_ROOM) == (g.vq.(lastSeen := Inc16(g.vq.lastSeen)), EOK, [es[0].head, es[0].tail])
  {
    hide HeadAt, NextUsedHead;
    var e := es[0];
    assert IsEntry(g, HeadAt(g.vq, 0), e);
    NextIsFirst(g.vq);
    WalkOfChain(g.vq.desc, [e.head, e.tail], CHAIN_ROOM);
  }

  lemma NextIsFirst(v: Vq)
    requires ShapeOk(v)
    ensures NextUsedHead(v) == HeadAt(v, 0)
  {
    AddWrapped(v.lastSeen, 0);
  }

  lemma NothingPending(g: Gpio, es: seq<Entry>)
    requires Ready(g, es) && es == []
    ensures g.vq.usedIdx == g.vq.lastSeen && UsedIdOk(g.vq)
  {
  }

  /** The queue after one round: two descriptors freed, two buffers unmapped, nothing else touched. */
  lemma HandledQueue(g: Gpio, e: Entry)
    requires WF(g.vq) && IsEntry(g, e.head, e)
    ensures var v := g.vq; var v' := HandleOne(g, e).vq;
            && WF(v')
            && v'.free == v.free + [e.head, e.tail]
            && v'.mem == v.mem - {e.b0, e.b1}
            && v'.lastSeen == Inc16(v.lastSeen)
            && v' == v.(desc := v'.desc, extras := v'.extras, free := v'.free, mem := v'.mem, lastSeen := v'.lastSeen)
            && (forall i :: 0 <= i < v.num && i != e.head && i != e.tail ==>
                   v'.desc[i] == v.desc[i] && v'.extras[i] == v.extras[i])
  {
    var v := g.vq.(lastSeen := Inc16(g.vq.lastSeen));
    var v1 := FreeDesc(v, e.head).0;
    FreeKeepsWF(v, e.head);
    NotFull(v.free, v.num, e.head) by { NotFreeWhenMapped(v, e.head); }
    FreeKeepsWF(v1, e.tail);
    NotFull(v1.free, v1.num, e.tail) by { NotFreeWhenMapped(v1, e.tail); }
    assert v.mem - {e.b0} - {e.b1} == v.mem - {e.b0, e.b1};
  }

  lemma NotFreeWhenMapped(v: Vq, i: nat)
    requires WF(v) && i < v.num && v.extras[i].vaddr in v.mem
    ensures i !in v.free
  {
  }

  /** After one round the remaining entries are pending, in the same order. */
  lemma HandleKeepsReady(g: Gpio, es: seq<Entry>)
    requires Ready(g, es) && es != []
    requires IsEntry(g, es[0].head, es[0])
    ensures Ready(HandleOne(g, es[0]), es[1..])
  {
    hide HandleOne, HeadAt;
    var e, g' := es[0], HandleOne(g, es[0]);
    HandledQueue(g, e);
    HandledContexts(g, e);
    assert PendingCount(g'.vq) == PendingCount(g.vq) - 1 by {
      StepDistance(g.vq.lastSeen, g.vq.usedIdx);
    }
    forall j | 0 <= j < |es[1..]| ensures IsEntry(g', HeadAt(g'.vq, j), es[1..][j]) {
      assert IsEntry(g, HeadAt(g.vq, j + 1), es[j + 1]) && Apart(e, es[j + 1]);
      HeadShifts(g.vq, g'.vq, j);
    }
  }

  lemma HandledContexts(g: Gpio, e: Entry)
    requires ShapeOk(g.vq) && IsEntry(g, e.head, e)
    ensures HandleOne(g, e).contexts.Keys == g.contexts.Keys
  {
  }

  /** What was pending second is pending first once the first is collected. */
  lemma HeadShifts(v: Vq, v': Vq, j: nat)
    requires ShapeOk(v) && ShapeOk(v')
    requires v'.num == v.num && v'.usedRing == v.usedRing && v'.lastSeen == Inc16(v.lastSeen)
    ensures HeadAt(v', j) == HeadAt(v, j + 1)
  {
    hide ShapeOk;
    StepIndex(v.lastSeen, j);
  }

  lemma StepDistance(from: nat, to: nat)
    requires from < WORD && to < WORD && from != to
    ensures Distance16(Inc16(from), to) == Distance16(from, to) - 1
  {
  }

  lemma StepIndex(from: nat, j: nat)
    ensures (Inc16(from) + j) % WORD == (from + (j + 1)) % WORD
  {
  }

  /** The drain loop as a whole. */
  ghost function Drained(g: Gpio, es: seq<Entry>): Gpio
    requires Ready(g, es)
    decreases |es|
  {
    if es == [] then g
    else
      FrontReads(g, es);
      HandleKeepsReady(g, es);
      Drained(HandleOne(g, es[0]), es[1..])
  }

  /** The descriptors of the entries, in order. */
  function Descs(es: seq<Entry>): seq<nat> {
    if es == [] then [] else [es[0].head, es[0].tail] + Descs(es[1..])
  }

  /** One round, in the terms the drain lemmas need. */
  lemma FirstRound(g: Gpio, es: seq<Entry>)
    requires Ready(g, es) && es != []
    ensures ShapeOk(g.vq) && IsEntry(g, es[0].head, es[0]) && Ready(HandleOne(g, es[0]), es[1..])
    ensures Drained(g, es) == Drained(HandleOne(g, es[0]), es[1..])
    ensures var e := es[0]; var g1 := HandleOne(g, e);
            && g1.vq.free == g.vq.free + [e.head, e.tail]
            && g1.vq.mem == g.vq.mem - {e.b0, e.b1}
            && g1.vq.usedIdx == g.vq.usedIdx
            && e.b1 in g.vq.mem && e.c in g.contexts
            && g1.contexts == Callback(g.contexts, e.c, g.vq.mem[e.b1])
    ensures forall j :: 0 < j < |es| ==> Apart(es[0], es[j])
  {
    FrontReads(g, es);
    HandleKeepsReady(g, es);
    HandledQueue(g, es[0]);
  }

  /** A drain empties the ring and returns the descriptors of every pending completion, in publication order. */
  lemma {:induction false} DrainedQueue(g: Gpio, es: seq<Entry>)
    requires Ready(g, es)
    ensures var v := Drained(g, es).vq;
            WF(v) && v.usedIdx == g.vq.usedIdx && v.lastSeen == v.usedIdx && v.free == g.vq.free + Descs(es)
    decreases |es|
  {
    hide Ready, IsEntry, WF, Apart, HandleOne;
    if es == [] {
      NothingPending(g, es);
      ReadyWF(g, es);
    } else {
      FirstRound(g, es);
      DrainedQueue(HandleOne(g, es[0]), es[1..]);
      assert g.vq.free + [es[0].head, es[0].tail] + Descs(es[1..]) == g.vq.free + Descs(es);
    }
  }

  lemma ReadyWF(g: Gpio, es: seq<Entry>)
    requires Ready(g, es)
    ensures WF(g.vq)
  {
  }

  /** A drain unmaps exactly the buffers of the pending completions. */
  lemma {:induction false} DrainedBuffers(g: Gpio, es: seq<Entry>, b: nat)
    requires Ready(g, es)
    ensures b in Drained(g, es).vq.mem <==> b in g.vq.mem && forall j :: 0 <= j < |es| ==>
              es[j].b0 != b && es[j].b1 != b
    decreases |es|
  {
    hide Ready, IsEntry, WF, Apart, HandleOne;
    if es != [] {
      FirstRound(g, es);
      DrainedBuffers(HandleOne(g, es[0]), es[1..], b);
      assert forall j :: 0 < j < |es| ==> es[j] == es[1..][j - 1];
    }
  }

  /** A drain leaves every context alone that no pending completion names. */
  lemma {:induction false} DrainedOthers(g: Gpio, es: seq<Entry>, c: nat)
    requires Ready(g, es) && forall j :: 0 <= j < |es| ==> es[j].c != c
    ensures Drained(g, es).contexts.Keys == g.contexts.Keys
    ensures c in g.contexts ==> Drained(g, es).contexts[c] == g.contexts[c]
    decreases |es|
  {
    hide Ready, IsEntry, WF, Apart, HandleOne;
    if es != [] {
      FirstRound(g, es);
      DrainedOthers(HandleOne(g, es[0]), es[1..], c);
    }
  }

  /** A drain hands each pending completion over exactly once: its own response to its own context, one post. */
  lemma {:induction false} DrainedDelivers(g: Gpio, es: seq<Entry>, j: nat)
    requires Ready(g, es) && j < |es|
    ensures es[j].b1 in g.vq.mem && es[j].c in g.contexts && es[j].c in Drained(g, es).contexts
    ensures Drained(g, es).contexts[es[j].c] ==
            Context(StatusOf(g.vq.mem[es[j].b1]), ValueOf(g.vq.mem[es[j].b1]), g.contexts[es[j].c].sem + 1)
    decreases |es|
  {
    hide Ready, IsEntry, WF;
    FirstRound(g, es);
    var g1 := HandleOne(g, es[0]);
    if j == 0 {
      DrainedOthers(g1, es[1..], es[0].c);
    } else {
      DrainedDelivers(g1, es[1..], j - 1);
      assert Apart(es[0], es[j]);
    }
  }
}
