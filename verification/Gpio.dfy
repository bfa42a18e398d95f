/** src/gpio/gpio.c and the interrupt callback of src/virtio_mmio/virtio_mmio.c as objects. What the operating
    system decides comes in as parameters; the callers' stack contexts are a table keyed by their address. */
module Gpios {
  import opened Words
  import opened VirtqSpec
  import Spec = VirtqSpec
  import opened Protocol
  import opened GpioSpec
  import opened Virtqs

  class GpioDevice {
    const requestq: Virtq
    var contexts: map<nat, Context>
    var notifications: nat

    constructor (vq: Virtq)
      requires vq.Valid()
      ensures requestq == vq && contexts == map[] && notifications == 0
      ensures Valid()
    {
      requestq := vq;
      contexts := map[];
      notifications := 0;
    }

    ghost predicate Valid()
      reads this, requestq.Repr()
    {
      this !in requestq.Repr() && requestq.Valid()
    }

    ghost function View(): Gpio
      reads this, requestq.Repr()
    {
      Gpio(requestq.View(), contexts)
    }

    /** Sends one request. `context` is the address of the caller's context. */
    method Request(kind: nat, gpio: nat, value: nat, context: nat, os0: MapOutcome, os1: MapOutcome) returns (rc: Errno)
      requires Valid() && OsOk(requestq.View(), os0, os1)
      modifies this, requestq.Repr()
      ensures Valid()
      ensures (requestq.View(), rc) ==
              SendRequest(old(requestq.View()), VirtqSpec.Request(kind, gpio, value), context, os0, os1)
      ensures rc == EOK <==> Succeeds(old(requestq.View()), os0, os1)
      ensures contexts == old(contexts)
      ensures notifications == old(notifications) + if rc == EOK then 1 else 0
    {
      hide WF, Valid, Virtq.Valid, Virtq.View, SendRequest, AllocDesc, FreeDesc, PutDescChain, OsOk, Permitted;
      ghost var v := requestq.View();
      var req := VirtqSpec.Request(kind, gpio, value);
      Unpack();
      requestq.Fields();
      RequestOutcome(v, req, context, os0, os1);
      var i0: nat, i1: nat;
      rc, i0 := requestq.AllocDesc(REQUEST_SIZE, false, os0);
      if rc != EOK {
        Pack();
        return;
      }
      rc, i1 := requestq.AllocDesc(RESPONSE_SIZE, true, os1);
      requestq.Fields();
      if rc != EOK {
        var _ := requestq.FreeDesc(i0);
        Pack();
        return;
      }
      FillAndPut(v, req, context, os0, os1, i0, i1);
      notifications := notifications + 1;
      Pack();
    }

    /** The rest of a request once both descriptors are allocated. */
    method FillAndPut(ghost v: Vq, req: Buffer, context: nat, ghost os0: MapOutcome, ghost os1: MapOutcome, i0: nat,
                      i1: nat)
      requires this !in requestq.Repr() && requestq.Valid()
      requires WF(v) && OsOk(v, os0, os1) && Succeeds(v, os0, os1) && i0 == v.free[0] && i1 == v.free[1]
      requires InTable(requestq.View(), i0) && requestq.View().extras[i0].vaddr == os0.addr && os0.addr in requestq.mem
      requires SetContext(WriteBuffer(requestq.View(), os0.addr, req), i0, context) ==
               GpioSpec.Filled(v, req, context, os0, os1)
      modifies requestq.Repr()
      ensures requestq.Valid()
      ensures requestq.View() == PutDescChain(GpioSpec.Filled(v, req, context, os0, os1), [i0, i1])
    {
      hide WF, Virtq.Valid, Virtq.View, OsOk, GpioSpec.Filled, PutDescChain, SetContext, WriteBuffer;
      requestq.Fields();
      FilledIndices(v, req, context, os0, os1);
      SetKeepsShape(requestq.View(), os0.addr, req, i0, context);
      WriteAndTag(req, context, i0);
      requestq.Fields();
      var ids := new nat[2];
      ids[0], ids[1] := i0, i1;
      assert ids[..] == [i0, i1];
      var _ := requestq.PutDescChain(ids);
    }

    /** The three fields of the request, then the context. */
    method WriteAndTag(req: Buffer, context: nat, i0: nat)
      requires this !in requestq.Repr() && requestq.Valid()
      requires InTable(requestq.View(), i0) && i0 < requestq.num && requestq.View().extras[i0].vaddr in requestq.mem
      modifies requestq.Repr()
      ensures requestq.Valid()
      ensures InTable(WriteBuffer(old(requestq.View()), old(requestq.View().extras[i0].vaddr), req), i0)
      ensures requestq.View() ==
              SetContext(WriteBuffer(old(requestq.View()), old(requestq.View().extras[i0].vaddr), req), i0, context)
    {
      hide WF, Virtq.Valid, Virtq.View, SetContext, WriteBuffer;
      requestq.Fields();
      SetKeepsShape(requestq.View(), requestq.View().extras[i0].vaddr, req, i0, context);
      var _, vaddr := requestq.GetDescVaddr(i0);
      requestq.StoreBuffer(vaddr, req);
      requestq.Fields();
      var _ := requestq.SetDescContext(i0, Some(context));
    }

    lemma FilledIndices(v: Vq, req: Buffer, c: nat, os0: MapOutcome, os1: MapOutcome)
      requires WF(v) && OsOk(v, os0, os1) && Succeeds(v, os0, os1)
      ensures v.free[0] < v.num && v.free[1] < v.num && GpioSpec.Filled(v, req, c, os0, os1).num == v.num
    {
      FilledPair(v, req, c, os0, os1);
    }

    lemma SetKeepsShape(v: Vq, b: nat, req: Buffer, i: nat, c: nat)
      requires InTable(v, i)
      ensures WriteBuffer(v, b, req).num == v.num && WriteBuffer(v, b, req).free == v.free
      ensures InTable(WriteBuffer(v, b, req), i) && SetContext(WriteBuffer(v, b, req), i, c).num == v.num
    {
    }

    lemma Unpack()
      requires Valid()
      ensures this !in requestq.Repr() && requestq.Valid() && WF(requestq.View())
    {
    }

    lemma Pack()
      requires this !in requestq.Repr() && requestq.Valid()
      ensures Valid()
    {
    }

    /** The two statements that collect a chain: room for two, then the call. */
    method Fetch(ghost g: Gpio, ghost es: seq<Entry>, idxs: array<nat>) returns (rc: Errno)
      requires requestq.Valid() && idxs !in requestq.Repr() && idxs.Length == 2
      requires Ready(g, es) && View() == g
      modifies requestq`lastSeen, idxs
      ensures requestq.Valid()
      ensures rc == if es == [] then ENOENT else EOK
      ensures es == [] ==> View() == g
      ensures es != [] ==>
        && View() == Gpio(g.vq.(lastSeen := Inc16(g.vq.lastSeen)), g.contexts)
        && idxs[0] == es[0].head && idxs[1] == es[0].tail
    {
      hide Ready, WF, Virtq.Valid, Virtq.View, GetDescChain, UsedIdOk, ShapeOk, LinksOk;
      FetchReady(g, es);
      var count;
      rc, count := requestq.GetDescChain(CHAIN_ROOM, idxs);
      assert idxs[..|idxs[..]|] == idxs[..];
    }

    /** virtq_callback: hand over every pending completion and free its descriptors. `es` names them for the proof. */
    method HandleCompletions(ghost es: seq<Entry>) returns (rc: Errno)
      requires Valid() && Ready(View(), es)
      modifies this, requestq.Repr()
      ensures Valid() && rc == ENOENT && View() == Drained(old(View()), es)
      ensures requestq.lastSeen == requestq.usedIdx
      ensures notifications == old(notifications)
    {
      hide Ready, WF, IsEntry, Virtq.Valid, Virtq.View, Drained, HandleOne, ShapeOk, Inc16;
      ghost var g, rest := View(), es;
      ghost var goal := Drained(g, es);
      var idxs := new nat[2];
      rc := Fetch(g, rest, idxs);
      while rc == EOK
        invariant this !in requestq.Repr() && requestq.Valid() && idxs !in requestq.Repr() && idxs.Length == 2
        invariant Ready(g, rest) && Drained(g, rest) == goal
        invariant rc == (if rest == [] then ENOENT else EOK)
        invariant rest == [] ==> View() == g
        invariant rest != [] ==> View() == Gpio(g.vq.(lastSeen := Inc16(g.vq.lastSeen)), g.contexts)
        invariant rest != [] ==> idxs[0] == rest[0].head && idxs[1] == rest[0].tail
        invariant notifications == old(notifications)
        decreases |rest|
      {
        ghost var e := rest[0];
        HandleRound(g, rest, idxs[0], idxs[1]);
        g, rest := HandleOne(g, e), rest[1..];
        rc := Fetch(g, rest, idxs);
      }
      DrainedQueue(g, rest);
      DrainedNothing(g, rest);
      requestq.Fields();
      Pack();
    }

    lemma DrainedNothing(g: Gpio, es: seq<Entry>)
      requires Ready(g, es) && es == []
      ensures Drained(g, es) == g
    {
    }

    /** What the next fetch will return. */
    lemma FetchReady(g: Gpio, es: seq<Entry>)
      requires Ready(g, es)
      ensures ShapeOk(g.vq) && LinksOk(g.vq.desc) && UsedIdOk(g.vq)
      ensures es == [] ==> GetDescChain(g.vq, CHAIN_ROOM) == (g.vq, ENOENT, [])
      ensures es != [] ==>
        GetDescChain(g.vq, CHAIN_ROOM) == (g.vq.(lastSeen := Inc16(g.vq.lastSeen)), EOK, [es[0].head, es[0].tail])
    {
      if es == [] {
        NothingPending(g, es);
      } else {
        FrontReads(g, es);
      }
    }

    /** The body of the drain loop: the callback on the two buffers and the context, then both descriptors are freed. */
    method HandleRound(ghost g: Gpio, ghost es: seq<Entry>, i0: nat, i1: nat)
      requires this !in requestq.Repr() && requestq.Valid()
      requires Ready(g, es) && es != [] && i0 == es[0].head && i1 == es[0].tail
      requires View() == Gpio(g.vq.(lastSeen := Inc16(g.vq.lastSeen)), g.contexts)
      modifies this, requestq.Repr()
      ensures requestq.Valid() && notifications == old(notifications)
      ensures ShapeOk(g.vq) && IsEntry(g, es[0].head, es[0])
      ensures Ready(HandleOne(g, es[0]), es[1..]) && Drained(HandleOne(g, es[0]), es[1..]) == Drained(g, es)
      ensures View() == HandleOne(g, es[0])
    {
      hide Ready, Virtq.Valid, Virtq.View, WF, Drained, FreeDesc, IsEntry, Callback, HandleOne;
      FirstRound(g, es);
      RoundFacts(g, es[0]);
      RunRound(g.vq.(lastSeen := Inc16(g.vq.lastSeen)), es[0], i0, i1);
    }

    /** The same for a queue `v` whose entry `e` was just collected. */
    method RunRound(ghost v: Vq, ghost e: Entry, i0: nat, i1: nat)
      requires this !in requestq.Repr() && requestq.Valid() && requestq.View() == v
      requires i0 == e.head && i1 == e.tail && InTable(v, i0) && InTable(v, i1) && i0 < v.num && i1 < v.num
      requires v.extras[i0].context == Some(e.c) && v.extras[i1].vaddr == e.b1 && e.b1 in v.mem && e.c in contexts
      requires InTable(Spec.FreeDesc(v, i0).0, i1)
      modifies this, requestq.Repr()
      ensures requestq.Valid() && notifications == old(notifications)
      ensures contexts == Callback(old(contexts), e.c, v.mem[e.b1])
      ensures requestq.View() == Spec.FreeDesc(Spec.FreeDesc(v, i0).0, i1).0
    {
      hide Virtq.Valid, Virtq.View, WF, Spec.FreeDesc, Callback;
      requestq.Fields();
      var _, request := requestq.GetDescVaddr(i0);
      var _, response := requestq.GetDescVaddr(i1);
      var _, context := requestq.GetDescContext(i0);
      RunCallback(requestq.mem[response], context.value);
      var _ := requestq.FreeDesc(i0);
      var _ := requestq.FreeDesc(i1);
    }

    /** virtio_gpio_callback: status, value, then the post. */
    method RunCallback(response: Buffer, c: nat)
      requires c in contexts
      modifies this`contexts
      ensures contexts == Callback(old(contexts), c, response)
    {
      contexts := contexts[c := contexts[c].(status := StatusOf(response))];
      contexts := contexts[c := contexts[c].(value := ValueOf(response))];
      contexts := contexts[c := contexts[c].(sem := contexts[c].sem + 1)];
    }

    /** What one round reads, and what it comes to. */
    lemma RoundFacts(g: Gpio, e: Entry)
      requires ShapeOk(g.vq) && IsEntry(g, e.head, e)
      ensures var v := g.vq.(lastSeen := Inc16(g.vq.lastSeen));
              && InTable(v, e.head) && InTable(v, e.tail) && e.head < v.num && e.tail < v.num
              && v.extras[e.head].context == Some(e.c) && v.extras[e.tail].vaddr == e.b1
              && e.b1 in v.mem && e.c in g.contexts
              && InTable(FreeDesc(v, e.head).0, e.tail)
              && HandleOne(g, e) == Gpio(FreeDesc(FreeDesc(v, e.head).0, e.tail).0,
                   Callback(g.contexts, e.c, v.mem[e.b1]))
    {
    }
  }

  /** Both outcomes of a request in one place. */
  lemma RequestOutcome(v: Vq, req: Buffer, c: nat, os0: MapOutcome, os1: MapOutcome)
    requires WF(v) && OsOk(v, os0, os1)
    ensures SendRequest(v, req, c, os0, os1).1 == EOK <==> Succeeds(v, os0, os1)
    ensures Permitted(v, OpAlloc(REQUEST_SIZE, false, os0), [])
    ensures var (v1, rc0, i0) := AllocDesc(v, REQUEST_SIZE, false, os0);
            rc0 == EOK ==>
              && WF(v1) && Permitted(v1, OpAlloc(RESPONSE_SIZE, true, os1), []) && i0 < v.num
              && var (v2, rc1, i1) := AllocDesc(v1, RESPONSE_SIZE, true, os1);
                 && (rc1 == EOK ==>
                       && Succeeds(v, os0, os1) && i0 == v.free[0] && i1 == v.free[1]
                       && InTable(v2, i0) && v2.extras[i0].vaddr == os0.addr && os0.addr in v2.mem
                       && SetContext(WriteBuffer(v2, os0.addr, req), i0, c) == GpioSpec.Filled(v, req, c, os0, os1)
                       && SendRequest(v, req, c, os0, os1) ==
                            (PutDescChain(GpioSpec.Filled(v, req, c, os0, os1), [i0, i1]), EOK))
                 && (rc1 != EOK ==> SendRequest(v, req, c, os0, os1) == (FreeDesc(v2, i0).0, rc1))
    ensures var (v1, rc0, _) := AllocDesc(v, REQUEST_SIZE, false, os0);
            rc0 != EOK ==> SendRequest(v, req, c, os0, os1) == (v1, rc0)
  {
    if Succeeds(v, os0, os1) {
      OutcomeOk(v, req, c, os0, os1);
    } else {
      FailedRequestRollsBack(v, req, c, os0, os1);
      OutcomeFail(v, os0, os1);
    }
  }

  lemma OutcomeOk(v: Vq, req: Buffer, c: nat, os0: MapOutcome, os1: MapOutcome)
    requires WF(v) && OsOk(v, os0, os1) && Succeeds(v, os0, os1)
    ensures SendRequest(v, req, c, os0, os1) ==
            (PutDescChain(GpioSpec.Filled(v, req, c, os0, os1), [v.free[0], v.free[1]]), EOK)
    ensures var (v1, rc0, i0) := AllocDesc(v, REQUEST_SIZE, false, os0);
            && rc0 == EOK && WF(v1) && i0 == v.free[0] && i0 < v.num
                 && Permitted(v1, OpAlloc(RESPONSE_SIZE, true, os1), [])
            && var (v2, rc1, i1) := AllocDesc(v1, RESPONSE_SIZE, true, os1);
               && rc1 == EOK && i1 == v.free[1] && InTable(v2, i0) && v2.extras[i0].vaddr == os0.addr
                    && os0.addr in v2.mem
               && SetContext(WriteBuffer(v2, os0.addr, req), i0, c) == GpioSpec.Filled(v, req, c, os0, os1)
  {
    hide IsChain, HasNext;
    FilledPair(v, req, c, os0, os1);
    AllocTakesFirst(v, REQUEST_SIZE, false, os0);
    var v1 := AllocDesc(v, REQUEST_SIZE, false, os0).0;
    AllocTakesFirst(v1, RESPONSE_SIZE, true, os1);
    assert v1.free[0] == v.free[1];
  }

  lemma OutcomeFail(v: Vq, os0: MapOutcome, os1: MapOutcome)
    requires WF(v) && OsOk(v, os0, os1) && !Succeeds(v, os0, os1)
    ensures var (v1, rc0, i0) := AllocDesc(v, REQUEST_SIZE, false, os0);
            rc0 == EOK ==>
              && WF(v1) && i0 < v.num && Permitted(v1, OpAlloc(RESPONSE_SIZE, true, os1), [])
              && AllocDesc(v1, RESPONSE_SIZE, true, os1).1 != EOK
  {
    if v.free != [] && os0.Mapped? {
      AllocTakesFirst(v, REQUEST_SIZE, false, os0);
    }
  }

  /** The MMIO transport in front of the request queue. */
  class MmioDevice {
    const gpio: GpioDevice
    var interruptStatus: bv32

    constructor (gpio: GpioDevice)
      ensures this.gpio == gpio && interruptStatus == 0
    {
      this.gpio := gpio;
      interruptStatus := 0;
    }

    /** virtio_mmio_virtq_callback: acknowledge the queue interrupt if it is set, only then drain. A write to the
        acknowledge register clears the bits written: bit 0, and never the configuration bit 1. */
    method VirtqCallback(ghost es: seq<Entry>) returns (rc: Errno)
      requires gpio.Valid() && this !in gpio.requestq.Repr() && Ready(gpio.View(), es)
      modifies this, gpio, gpio.requestq.Repr()
      ensures gpio.Valid() && rc == ENOENT && gpio.View() == Drained(old(gpio.View()), es)
      ensures interruptStatus == old(interruptStatus) & 0xffff_fffe
    {
      hide Ready, Drained, GpioDevice.Valid, GpioDevice.View, Remaining;
      var status := interruptStatus;
      ghost var acked := status & 0xffff_fffe;
      AckFacts(status);
      if status & INT_VIRTQ != 0 {
        Acknowledge(INT_VIRTQ);
      }
      ghost var g := gpio.View();
      rc := EOK;
      while rc == EOK
        invariant gpio.Valid() && interruptStatus == acked
        invariant rc == EOK || rc == ENOENT
        invariant rc == EOK ==> gpio.View() == g
        invariant rc == ENOENT ==> gpio.View() == Drained(g, es)
        decreases rc == EOK
      {
        rc := gpio.HandleCompletions(es);
      }
    }

    /** What a write of `bits` to the acknowledge register leaves pending. */
    function Remaining(status: bv32, bits: bv32): bv32 {
      status & !bits
    }

    method Acknowledge(bits: bv32)
      modifies this`interruptStatus
      ensures interruptStatus == Remaining(old(interruptStatus), bits)
    {
      interruptStatus := interruptStatus & !bits;
    }

    lemma AckFacts(status: bv32)
      ensures status & INT_VIRTQ == 0 ==> status & 0xffff_fffe == status
      ensures Remaining(status, INT_VIRTQ) == status & 0xffff_fffe
    {
    }
  }

  const INT_VIRTQ: bv32 := 1
}
