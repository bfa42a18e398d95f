/** The request protocol as a step system: callers, the device and the interrupt thread share one virtqueue
    and interleave freely. Each step is one atomic access of the source; the functions of VirtqSpec say what
    it does to the queue. `History` records what happened. Steps read it only to number chains, and to fault on
    a chain that comes back without being in flight; what an actor does with good data never depends on it. */
module Protocol {
  import opened Words
  import opened Wire
  import opened VirtqSpec

  const REQUEST_SIZE := 8
  const RESPONSE_SIZE := 2
  const CHAIN_ROOM := 2

  const MSG_GET_DIRECTION := 0x0002
  const MSG_SET_DIRECTION := 0x0003
  const MSG_GET_VALUE := 0x0004
  const MSG_SET_VALUE := 0x0005
  const STATUS_OK := 0

  // ----- State -----

  /** A caller's stack context: what the callback stores, and its semaphore. */
  datatype Context = Context(status: nat, value: nat, sem: nat)

  datatype Phase = Unmap | Clear | Give

  datatype Outcome = NoCall | Failed(err: Errno) | Returned(req: Buffer, p: nat, rc: Errno, value: nat)

  /** Where a caller stands in virtio_gpio_request and the wait after it. `p` numbers its published chain. */
  datatype Caller =
    | Idle(last: Outcome)
    | Take(req: Buffer, first: Option<nat>)
    | MapIn(req: Buffer, first: Option<nat>, i: nat)
    | FillIn(req: Buffer, first: Option<nat>, i: nat, b: nat)
    | Write(req: Buffer, i0: nat, i1: nat)
    | Tag(req: Buffer, i0: nat, i1: nat)
    | Link(req: Buffer, i0: nat, i1: nat)
    | Ring(req: Buffer, i0: nat, i1: nat)
    | Bump(req: Buffer, i0: nat, i1: nat)
    | Notify(req: Buffer, p: nat)
    | Wait(req: Buffer, p: nat)
    | Undo(i: nat, phase: Phase, err: Errno)

  /** A chain the device works on: the head it read from the ring, and whether the response is written. */
  datatype Job = Job(head: nat, done: bool)

  /** `work` is keyed by the device's own count of takes. */
  datatype Device = Device(taken: nat, work: map<nat, Job>, staged: Option<nat>, mustRaise: bool, awake: bool)

  /** Where the interrupt thread stands. `p` numbers the chain it handles. */
  datatype Ist =
    | Waiting
    | Woken
    | Ack(pending: bool)
    | Drain
    | Found(i0: nat, i1: nat, p: nat)
    | CopyValue(i0: nat, i1: nat, c: nat, p: nat)
    | Post(i0: nat, i1: nat, c: nat, p: nat)
    | Freeing(i: nat, phase: Phase, rest: Option<nat>)

  datatype Owner = Free | Building(c: nat) | InFlight(p: nat) | Handling
  datatype Holder = AtDesc(i: nat) | AtCaller(c: nat)
  datatype Ticket = Ticket(head: nat, tail: nat, caller: nat, req: Buffer)
  datatype Stage = Queued | Working | Used(j: nat) | Collected(j: nat)
  datatype Served = Served(req: Buffer, status: nat, value: nat)

  /** `published` is the unbounded queue behind the available ring, `completed` the one behind the used ring. */
  datatype History = History(
    published: seq<Ticket>,
    stage: seq<Stage>,
    completed: seq<nat>,
    collected: nat,
    served: map<nat, Served>,
    delivered: seq<nat>,
    owner: seq<Owner>,
    holder: map<nat, Holder>)

  datatype State = State(
    vq: Vq,
    lock: Option<nat>,
    callers: seq<Caller>,
    contexts: map<nat, Context>,
    dev: Device,
    irq: bool,
    ist: Ist,
    fault: bool,
    h: History)

  datatype Step =
    | SBegin(c: nat, req: Buffer)
    | STake(c: nat)
    | SMap(c: nat, b: nat)
    | SMapFail(c: nat, err: Errno)
    | SFill(c: nat)
    | SWrite(c: nat)
    | STag(c: nat)
    | SLink(c: nat)
    | SRing(c: nat)
    | SBump(c: nat)
    | SNotify(c: nat)
    | SWake(c: nat)
    | SUndo(c: nat)
    | DTake
    | DRespond(p: nat, status: nat, value: nat)
    | DStage(p: nat)
    | DPublish
    | DRaise
    | DSleep
    | IWake
    | IRead
    | IAck
    | IGet
    | IStatus
    | IValue
    | IPost
    | IFree

  // ----- When a step can be taken -----

  /** The requests the four public calls send; none asks for line names. */
  predicate Sendable(req: Buffer) {
    && req.Request?
    && req.kind in {MSG_GET_DIRECTION, MSG_SET_DIRECTION, MSG_GET_VALUE, MSG_SET_VALUE}
    && req.gpio < WORD && req.value < WORD
  }

  predicate At(s: State, c: nat) {
    c < |s.callers|
  }

  predicate Enabled(s: State, step: Step) {
    match step
    case SBegin(c, req) => At(s, c) && s.callers[c].Idle? && Sendable(req)
    case STake(c) => At(s, c) && s.callers[c].Take?
    case SMap(c, b) => At(s, c) && s.callers[c].MapIn? && b != 0 && b !in s.vq.mem
    case SMapFail(c, err) => At(s, c) && s.callers[c].MapIn? && err != EOK
    case SFill(c) => At(s, c) && s.callers[c].FillIn?
    case SWrite(c) => At(s, c) && s.callers[c].Write?
    case STag(c) => At(s, c) && s.callers[c].Tag?
    case SLink(c) => At(s, c) && s.callers[c].Link?
    case SRing(c) => At(s, c) && s.callers[c].Ring? && s.lock.None?
    case SBump(c) => At(s, c) && s.callers[c].Bump?
    case SNotify(c) => At(s, c) && s.callers[c].Notify?
    case SWake(c) => At(s, c) && s.callers[c].Wait? && c in s.contexts && s.contexts[c].sem > 0
    case SUndo(c) => At(s, c) && s.callers[c].Undo?
    case DTake => s.dev.awake && s.vq.availIdx != s.dev.taken % WORD
    case DRespond(p, status, value) => p in s.dev.work && !s.dev.work[p].done && status < 0x100 && value < 0x100
    case DStage(p) => p in s.dev.work && s.dev.work[p].done && s.dev.staged.None?
    case DPublish => s.dev.staged.Some?
    case DRaise => s.dev.mustRaise
    case DSleep => s.dev.awake && s.vq.availIdx == s.dev.taken % WORD
    case IWake => s.ist.Waiting?
    case IRead => s.ist.Woken?
    case IAck => s.ist.Ack?
    case IGet => s.ist.Drain? && s.lock.None?
    case IStatus => s.ist.Found?
    case IValue => s.ist.CopyValue?
    case IPost => s.ist.Post?
    case IFree => s.ist.Freeing?
  }

  // ----- What a step does -----

  /** An access outside mapped memory, outside the table, to a context that is not on any live stack, or
      against what a descriptor allows the device. */
  function Fault(s: State): State {
    s.(fault := true)
  }

  function Goto(s: State, c: nat, pc: Caller): State
    requires At(s, c)
  {
    s.(callers := s.callers[c := pc])
  }

  /** The public call ends: its stack context is gone. */
  function Leave(s: State, c: nat, last: Outcome): State
    requires At(s, c)
  {
    s.(callers := s.callers[c := Idle(last)], contexts := s.contexts - {c})
  }

  function Own(h: History, i: nat, o: Owner): History {
    if i < |h.owner| then h.(owner := h.owner[i := o]) else h
  }

  /** After the first allocation failed the call ends; after the second the first is undone. */
  function GiveUp(s: State, c: nat, first: Option<nat>, err: Errno): State
    requires At(s, c)
  {
    match first
    case None => Leave(s, c, Failed(err))
    case Some(i0) => Goto(s, c, Undo(i0, Unmap, err))
  }

  function Begin(s: State, c: nat, req: Buffer): State
    requires Enabled(s, SBegin(c, req))
  {
    Goto(s, c, Take(req, None)).(contexts := s.contexts[c := Context(0, 0, 0)])
  }

  function TakeDesc(s: State, c: nat): State
    requires Enabled(s, STake(c))
  {
    var pc := s.callers[c];
    if s.vq.free == [] then GiveUp(s, c, pc.first, ENOENT)
    else
      var i := s.vq.free[0];
      Goto(s, c, MapIn(pc.req, pc.first, i)).(vq := TakeFree(s.vq), h := Own(s.h, i, Building(c)))
  }

  function MapDesc(s: State, c: nat, b: nat): State
    requires Enabled(s, SMap(c, b))
  {
    var pc := s.callers[c];
    Goto(s, c, FillIn(pc.req, pc.first, pc.i, b)).(
      vq := MapBuffer(s.vq, b),
      h := s.h.(holder := s.h.holder[b := AtCaller(c)]))
  }

  function MapFail(s: State, c: nat, err: Errno): State
    requires Enabled(s, SMapFail(c, err))
  {
    var pc := s.callers[c];
    GiveUp(s.(vq := ReturnFree(s.vq, pc.i), h := Own(s.h, pc.i, Free)), c, pc.first, err)
  }

  function Fill(s: State, c: nat): State
    requires Enabled(s, SFill(c))
  {
    var pc := s.callers[c];
    if !InTable(s.vq, pc.i) then Fault(s)
    else
      var next := match pc.first case None => Take(pc.req, Some(pc.i)) case Some(i0) => Write(pc.req, i0, pc.i);
      Goto(s, c, next).(
        vq := FillDesc(s.vq, pc.i, pc.b, if pc.first.None? then REQUEST_SIZE else RESPONSE_SIZE, pc.first.Some?),
        h := s.h.(holder := s.h.holder[pc.b := AtDesc(pc.i)]))
  }

  function WriteRequest(s: State, c: nat): State
    requires Enabled(s, SWrite(c))
  {
    var pc := s.callers[c];
    if !InTable(s.vq, pc.i0) || s.vq.extras[pc.i0].vaddr !in s.vq.mem then Fault(s)
    else Goto(s, c, Tag(pc.req, pc.i0, pc.i1)).(vq := WriteBuffer(s.vq, s.vq.extras[pc.i0].vaddr, pc.req))
  }

  function TagContext(s: State, c: nat): State
    requires Enabled(s, STag(c))
  {
    var pc := s.callers[c];
    if !InTable(s.vq, pc.i0) then Fault(s)
    else Goto(s, c, Link(pc.req, pc.i0, pc.i1)).(vq := SetContext(s.vq, pc.i0, c))
  }

  function LinkPair(s: State, c: nat): State
    requires Enabled(s, SLink(c))
  {
    var pc := s.callers[c];
    if pc.i0 >= |s.vq.desc| || pc.i1 >= |s.vq.desc| then Fault(s)
    else Goto(s, c, Ring(pc.req, pc.i0, pc.i1)).(vq := s.vq.(desc := LinkChain(s.vq.desc, [pc.i0, pc.i1])))
  }

  function WriteRing(s: State, c: nat): State
    requires Enabled(s, SRing(c))
  {
    var pc := s.callers[c];
    if !ShapeOk(s.vq) then Fault(s)
    else Goto(s, c, Bump(pc.req, pc.i0, pc.i1)).(vq := RingWrite(s.vq, pc.i0), lock := Some(c))
  }

  function Publish(s: State, c: nat): State
    requires Enabled(s, SBump(c))
  {
    var pc := s.callers[c];
    var p := |s.h.published|;
    var h := Own(Own(s.h, pc.i0, InFlight(p)), pc.i1, InFlight(p));
    Goto(s, c, Notify(pc.req, p)).(
      vq := BumpAvail(s.vq),
      lock := None,
      h := h.(published := s.h.published + [Ticket(pc.i0, pc.i1, c, pc.req)], stage := s.h.stage + [Queued]))
  }

  function NotifyDevice(s: State, c: nat): State
    requires Enabled(s, SNotify(c))
  {
    Goto(s, c, Wait(s.callers[c].req, s.callers[c].p)).(dev := s.dev.(awake := true))
  }

  /** The waiting call returns with what the callback left in its context. */
  function Wake(s: State, c: nat): State
    requires Enabled(s, SWake(c))
  {
    var pc, x := s.callers[c], s.contexts[c];
    Leave(s, c, Returned(pc.req, pc.p, if x.status == STATUS_OK then EOK else EIO, x.value))
  }

  /** One step of virtq_free_desc on queue and history; the flag says whether the call went on. */
  function FreeStep(vq: Vq, h: History, i: nat, phase: Phase): (Vq, History, bool)
    requires InTable(vq, i)
  {
    match phase
    case Unmap =>
      var b := vq.extras[i].vaddr;
      if b !in vq.mem then (vq, h, false)
      else (UnmapBuffer(vq, b), h.(holder := h.holder - {b}), true)
    case Clear => (ClearDesc(vq, i), h, true)
    case Give => (ReturnFree(vq, i), Own(h, i, Free), false)
  }

  function UndoStep(s: State, c: nat): State
    requires Enabled(s, SUndo(c))
  {
    var pc := s.callers[c];
    if !InTable(s.vq, pc.i) then Fault(s)
    else
      var (vq, h, more) := FreeStep(s.vq, s.h, pc.i, pc.phase);
      var s' := s.(vq := vq, h := h);
      if more then Goto(s', c, Undo(pc.i, if pc.phase.Unmap? then Clear else Give, pc.err))
      else Leave(s', c, Failed(pc.err))
  }

  function DevTake(s: State): State
    requires Enabled(s, DTake)
  {
    if !ShapeOk(s.vq) then Fault(s)
    else
      var head := s.vq.availRing[(s.dev.taken % WORD) % s.vq.num];
      var stage := if s.dev.taken < |s.h.stage| then s.h.stage[s.dev.taken := Working] else s.h.stage;
      s.(dev := s.dev.(taken := s.dev.taken + 1, work := s.dev.work[s.dev.taken := Job(head, false)]),
         h := s.h.(stage := stage))
  }

  /** The device follows the chain from the head, reads the request and writes a response of its choice. It
      expects a readable buffer for the request, then a writable one for the response, both large enough. */
  function DevRespond(s: State, p: nat, status: nat, value: nat): State
    requires Enabled(s, DRespond(p, status, value))
  {
    var head, desc, mem := s.dev.work[p].head, s.vq.desc, s.vq.mem;
    if head >= |desc| || !GoesOn(desc[head].flags) || desc[head].next >= |desc| then Fault(s)
    else
      var tail := desc[head].next;
      if GoesOn(desc[tail].flags) || desc[head].addr !in mem || desc[tail].addr !in mem then Fault(s)
      else if DeviceWrites(desc[head].flags) || !DeviceWrites(desc[tail].flags) then Fault(s)
      else if desc[head].len < |RequestBytes(0, 0, 0)| || desc[tail].len < |ResponseBytes(0, 0)| then Fault(s)
      else
        s.(vq := WriteBuffer(s.vq, desc[tail].addr, Response(status, value)),
           dev := s.dev.(work := s.dev.work[p := Job(head, true)]),
           h := s.h.(served := s.h.served[p := Served(mem[desc[head].addr], status, value)]))
  }

  function DevStage(s: State, p: nat): State
    requires Enabled(s, DStage(p))
  {
    if !ShapeOk(s.vq) then Fault(s)
    else
      var ring := s.vq.usedRing[s.vq.usedIdx % s.vq.num := UsedElem(s.dev.work[p].head, RESPONSE_SIZE)];
      s.(vq := s.vq.(usedRing := ring), dev := s.dev.(staged := Some(p)))
  }

  /** The used index moves; an interrupt is owed unless the driver suppressed interrupts in the available ring. */
  function DevPublish(s: State): State
    requires Enabled(s, DPublish)
  {
    var p := s.dev.staged.value;
    var stage := if p < |s.h.stage| then s.h.stage[p := Used(|s.h.completed|)] else s.h.stage;
    s.(vq := s.vq.(usedIdx := Inc16(s.vq.usedIdx)),
       dev := s.dev.(work := s.dev.work - {p}, staged := None, mustRaise := s.dev.mustRaise
           || s.vq.availFlags % 2 == 0),
       h := s.h.(stage := stage, completed := s.h.completed + [p]))
  }

  /** virtq_get_desc_chain with room for two; it takes and releases the queue lock within the step. The chain is
      known by the descriptor that came out of the ring; one that is not in flight is a fault. */
  function GetChain(s: State): State
    requires Enabled(s, IGet)
  {
    if !ShapeOk(s.vq) || !LinksOk(s.vq.desc) || !UsedIdOk(s.vq) then Fault(s)
    else
      var (vq, rc, ids) := GetDescChain(s.vq, CHAIN_ROOM);
      if rc != EOK then s.(ist := Waiting)
      else if |ids| != CHAIN_ROOM || ids[0] >= |s.h.owner| || !s.h.owner[ids[0]].InFlight? then Fault(s)
      else
        var p := s.h.owner[ids[0]].p;
        var stage := if p < |s.h.stage| then s.h.stage[p := Collected(s.h.collected)] else s.h.stage;
        var h := Own(Own(s.h, ids[0], Handling), ids[1], Handling);
        s.(vq := vq, ist := Found(ids[0], ids[1], p),
           h := h.(stage := stage, collected := s.h.collected + 1))
  }

  function StatusOf(b: Buffer): nat {
    if b.Response? then b.status else 0
  }

  function ValueOf(b: Buffer): nat {
    if b.Response? then b.value else 0
  }

  /** Both buffers are mapped and the context is on a live stack. */
  predicate CallbackSafe(s: State, i0: nat, i1: nat, c: nat) {
    && InTable(s.vq, i0) && InTable(s.vq, i1)
    && s.vq.extras[i0].vaddr in s.vq.mem && s.vq.extras[i1].vaddr in s.vq.mem
    && c in s.contexts
  }

  function CopyStatus(s: State): State
    requires Enabled(s, IStatus)
  {
    var i0, i1 := s.ist.i0, s.ist.i1;
    if !InTable(s.vq, i0) || s.vq.extras[i0].context.None? then Fault(s)
    else
      var c := s.vq.extras[i0].context.value;
      if !CallbackSafe(s, i0, i1, c) then Fault(s)
      else
        var status := StatusOf(s.vq.mem[s.vq.extras[i1].vaddr]);
        s.(contexts := s.contexts[c := s.contexts[c].(status := status)], ist := CopyValue(i0, i1, c, s.ist.p))
  }

  function CopyVal(s: State): State
    requires Enabled(s, IValue)
  {
    var i0, i1, c := s.ist.i0, s.ist.i1, s.ist.c;
    if !CallbackSafe(s, i0, i1, c) then Fault(s)
    else
      var value := ValueOf(s.vq.mem[s.vq.extras[i1].vaddr]);
      s.(contexts := s.contexts[c := s.contexts[c].(value := value)], ist := Post(i0, i1, c, s.ist.p))
  }

  function PostSem(s: State): State
    requires Enabled(s, IPost)
  {
    var c := s.ist.c;
    if c !in s.contexts then Fault(s)
    else
      s.(contexts := s.contexts[c := s.contexts[c].(sem := s.contexts[c].sem + 1)],
         ist := Freeing(s.ist.i0, Unmap, Some(s.ist.i1)),
         h := s.h.(delivered := s.h.delivered + [s.ist.p]))
  }

  function HandlerFree(s: State): State
    requires Enabled(s, IFree)
  {
    var i, phase, rest := s.ist.i, s.ist.phase, s.ist.rest;
    if !InTable(s.vq, i) then Fault(s)
    else
      var (vq, h, more) := FreeStep(s.vq, s.h, i, phase);
      var s' := s.(vq := vq, h := h);
      if more then s'.(ist := Freeing(i, if phase.Unmap? then Clear else Give, rest))
      else match rest
        case None => s'.(ist := Drain)
        case Some(i1) => s'.(ist := Freeing(i1, Unmap, None))
  }

  function Next(s: State, step: Step): State
    requires Enabled(s, step)
  {
    match step
    case SBegin(c, req) => Begin(s, c, req)
    case STake(c) => TakeDesc(s, c)
    case SMap(c, b) => MapDesc(s, c, b)
    case SMapFail(c, err) => MapFail(s, c, err)
    case SFill(c) => Fill(s, c)
    case SWrite(c) => WriteRequest(s, c)
    case STag(c) => TagContext(s, c)
    case SLink(c) => LinkPair(s, c)
    case SRing(c) => WriteRing(s, c)
    case SBump(c) => Publish(s, c)
    case SNotify(c) => NotifyDevice(s, c)
    case SWake(c) => Wake(s, c)
    case SUndo(c) => UndoStep(s, c)
    case DTake => DevTake(s)
    case DRespond(p, status, value) => DevRespond(s, p, status, value)
    case DStage(p) => DevStage(s, p)
    case DPublish => DevPublish(s)
    case DRaise => s.(irq := true, dev := s.dev.(mustRaise := false))
    case DSleep => s.(dev := s.dev.(awake := false))
    case IWake => s.(ist := Woken)
    case IRead => s.(ist := Ack(s.irq))
    case IAck => s.(ist := Drain, irq := s.irq && !s.ist.pending)
    case IGet => GetChain(s)
    case IStatus => CopyStatus(s)
    case IValue => CopyVal(s)
    case IPost => PostSem(s)
    case IFree => HandlerFree(s)
  }

  // ----- Runs -----

  /** What virtq_create leaves, before any caller, device or interrupt has acted. */
  ghost predicate Init(s: State) {
    && IsPow2(s.vq.num) && s.vq.num <= 32768
    && |s.vq.desc| == |s.vq.extras| == |s.vq.availRing| == |s.vq.usedRing| == s.vq.num
    && (forall i :: 0 <= i < s.vq.num ==> s.vq.desc[i] == ZERO_DESC && s.vq.extras[i] == ZERO_EXTRA)
    && s.vq.availFlags == s.vq.availIdx == s.vq.usedIdx == s.vq.lastSeen == 0
    && |s.vq.free| == s.vq.num && (forall i :: 0 <= i < s.vq.num ==> s.vq.free[i] == i)
    && s.vq.mem == map[] && s.contexts == map[]
    && s.lock.None? && !s.irq && s.ist.Waiting? && !s.fault
    && (forall c :: 0 <= c < |s.callers| ==> s.callers[c] == Idle(NoCall))
    && s.dev == Device(0, map[], None, false, false)
    && s.h.published == [] && s.h.stage == [] && s.h.completed == [] && s.h.collected == 0
    && s.h.served == map[] && s.h.delivered == [] && s.h.holder == map[]
    && |s.h.owner| == s.vq.num && (forall i :: 0 <= i < s.vq.num ==> s.h.owner[i] == Free)
  }

  /** `steps` leads from `s` to `s'`. */
  ghost predicate Leads(s: State, steps: seq<Step>, s': State)
    decreases |steps|
  {
    if steps == [] then s == s'
    else Enabled(s, steps[0]) && Leads(Next(s, steps[0]), steps[1..], s')
  }

  ghost predicate Reachable(s: State) {
    exists s0, steps :: Init(s0) && Leads(s0, steps, s)
  }
}
