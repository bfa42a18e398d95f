/** The inductive invariant of the protocol. Every part is a predicate on just the components it speaks of,
    so a step that leaves those components alone keeps it by congruence. */
module Invariant {
  import opened Words
  import opened VirtqSpec
  import opened Protocol

  // ----- Who holds which descriptor -----

  /** The descriptors a caller holds outside the free list. */
  function Held(pc: Caller): set<nat> {
    match pc
    case Idle(_) => {}
    case Take(_, None) => {}
    case Take(_, Some(i0)) => {i0}
    case MapIn(_, None, i) => {i}
    case MapIn(_, Some(i0), i) => {i0, i}
    case FillIn(_, None, i, _) => {i}
    case FillIn(_, Some(i0), i, _) => {i0, i}
    case Write(_, i0, i1) => {i0, i1}
    case Tag(_, i0, i1) => {i0, i1}
    case Link(_, i0, i1) => {i0, i1}
    case Ring(_, i0, i1) => {i0, i1}
    case Bump(_, i0, i1) => {i0, i1}
    case Notify(_, _) => {}
    case Wait(_, _) => {}
    case Undo(i, _, _) => {i}
  }

  /** The two descriptors of a pair are different. */
  predicate PairDistinct(pc: Caller) {
    match pc
    case MapIn(_, Some(i0), i) => i0 != i
    case FillIn(_, Some(i0), i, _) => i0 != i
    case Write(_, i0, i1) => i0 != i1
    case Tag(_, i0, i1) => i0 != i1
    case Link(_, i0, i1) => i0 != i1
    case Ring(_, i0, i1) => i0 != i1
    case Bump(_, i0, i1) => i0 != i1
    case _ => true
  }

  function HeldByHandler(ist: Ist): set<nat> {
    match ist
    case Found(i0, i1, _) => {i0, i1}
    case CopyValue(i0, i1, _, _) => {i0, i1}
    case Post(i0, i1, _, _) => {i0, i1}
    case Freeing(i, _, None) => {i}
    case Freeing(i, _, Some(i1)) => {i, i1}
    case _ => {}
  }

  predicate HandlerDistinct(ist: Ist) {
    match ist
    case Found(i0, i1, _) => i0 != i1
    case CopyValue(i0, i1, _, _) => i0 != i1
    case Post(i0, i1, _, _) => i0 != i1
    case Freeing(i, _, Some(i1)) => i != i1
    case _ => true
  }

  datatype Kind = KFree | KBuilding | KInFlight | KHandling

  function KindOf(o: Owner): Kind {
    match o
    case Free => KFree
    case Building(_) => KBuilding
    case InFlight(_) => KInFlight
    case Handling => KHandling
  }

  /** How many descriptors have an owner of kind `k`. */
  function Count(owner: seq<Owner>, k: Kind): nat {
    if owner == [] then 0
    else Count(owner[..|owner| - 1], k) + if KindOf(owner[|owner| - 1]) == k then 1 else 0
  }

  // ----- The parts of the invariant -----

  ghost predicate TableOk(vq: Vq, owner: seq<Owner>) {
    && IsPow2(vq.num) && vq.num <= 32768
    && |vq.desc| == |vq.extras| == |vq.availRing| == |vq.usedRing| == |owner| == vq.num
    && LinksOk(vq.desc)
    && vq.availFlags == 0
  }

  ghost predicate FreeOk(free: seq<nat>, owner: seq<Owner>, desc: seq<Desc>, extras: seq<Extra>) {
    && |desc| == |extras| == |owner|
    && NoDup(free)
    && |free| == Count(owner, KFree)
    && (forall k: nat :: k < |free| ==> free[k] < |owner| && owner[free[k]] == Free)
    && (forall i: nat {:trigger owner[i]} :: i < |owner| && owner[i].Free? ==>
           i in free && desc[i] == ZERO_DESC && extras[i] == ZERO_EXTRA)
  }

  ghost predicate CallersOk(callers: seq<Caller>, owner: seq<Owner>) {
    && (forall c: nat, i: nat {:trigger i in Held(callers[c])} :: c < |callers| && i in Held(callers[c]) ==>
           i < |owner| && owner[i] == Building(c))
    && (forall i: nat :: i < |owner| && owner[i].Building? ==> owner[i].c < |callers| && i in Held(callers[owner[i].c]))
    && (forall c: nat :: c < |callers| ==> PairDistinct(callers[c]))
  }

  ghost predicate HandlerOk(ist: Ist, owner: seq<Owner>) {
    && (forall i: nat :: i in HeldByHandler(ist) ==> i < |owner| && owner[i] == Handling)
    && (forall i: nat :: i < |owner| && owner[i].Handling? ==> i in HeldByHandler(ist))
    && HandlerDistinct(ist)
    && Count(owner, KHandling) == |HeldByHandler(ist)|
  }

  predicate Outstanding(stage: seq<Stage>, p: nat) {
    p < |stage| && !stage[p].Collected?
  }

  ghost predicate FlightOk(published: seq<Ticket>, stage: seq<Stage>, collected: nat, owner: seq<Owner>) {
    && |stage| == |published|
    && collected <= |published|
    && Count(owner, KInFlight) == 2 * (|published| - collected)
    && (forall p: nat :: p < |published| && Outstanding(stage, p) ==>
          var t := published[p];
          && t.head < |owner| && t.tail < |owner| && t.head != t.tail
          && owner[t.head] == InFlight(p) && owner[t.tail] == InFlight(p))
    && (forall i: nat :: i < |owner| && owner[i].InFlight? ==>
          Outstanding(stage, owner[i].p) && (i == published[owner[i].p].head || i == published[owner[i].p].tail))
  }

  ghost predicate StageOk(stage: seq<Stage>, dev: Device, completed: seq<nat>, collected: nat) {
    && dev.taken <= |stage|
    && collected <= |completed|
    && |completed| + |dev.work| == dev.taken
    && StagesTaken(stage, dev)
    && StagesListed(stage, completed, collected)
  }

  /** What the device has taken and what it works on. */
  ghost predicate StagesTaken(stage: seq<Stage>, dev: Device) {
    && (forall p: nat :: p < |stage| ==> (stage[p].Queued? <==> dev.taken <= p))
    && (forall p: nat :: p in dev.work <==> p < |stage| && stage[p].Working?)
    && (dev.staged.Some? ==> dev.staged.value in dev.work && dev.work[dev.staged.value].done)
  }

  /** Where the completed chains stand in the queue behind the used ring. */
  ghost predicate StagesListed(stage: seq<Stage>, completed: seq<nat>, collected: nat) {
    && (forall p: nat :: p < |stage| && stage[p].Used? ==>
          collected <= stage[p].j < |completed| && completed[stage[p].j] == p)
    && (forall p: nat :: p < |stage| && stage[p].Collected? ==>
          stage[p].j < |completed| && stage[p].j < collected && completed[stage[p].j] == p)
    && (forall j: nat :: j < |completed| ==>
          completed[j] < |stage| && stage[completed[j]] == if j < collected then Collected(j) else Used(j))
  }

  /** A response exists exactly for the chains the device finished, and it answers that chain's own request. */
  ghost predicate ServedOk(published: seq<Ticket>, stage: seq<Stage>, work: map<nat, Job>, served: map<nat, Served>) {
    && |stage| == |published|
    && (forall p: nat :: p in work ==> p < |stage| && stage[p].Working?)
    && (forall p: nat :: p in served <==>
           p < |stage| && !stage[p].Queued? && (stage[p].Working? ==> p in work && work[p].done))
    && (forall p: nat :: p in served ==> served[p].req == published[p].req)
  }

  /** Every slot the device has not read yet holds the head published at that count. */
  ghost predicate AvailOk(num: nat, availIdx: nat, availRing: seq<nat>, published: seq<Ticket>, taken: nat) {
    && 0 < num == |availRing|
    && taken <= |published|
    && availIdx == |published| % WORD
    && (forall k: nat :: taken <= k < |published| ==> availRing[k % num] == published[k].head)
  }

  /** Between the ring write and the index update the lock holder's head sits in the next slot. */
  ghost predicate BumpOk(num: nat, availRing: seq<nat>, count: nat, callers: seq<Caller>, lock: Option<nat>) {
    && 0 < num == |availRing|
    && (forall c: nat :: c < |callers| && callers[c].Bump? ==>
           lock == Some(c) && availRing[count % num] == callers[c].i0)
    && (lock.Some? ==> lock.value < |callers| && callers[lock.value].Bump?)
  }

  /** Every used element the driver has not collected yet names the head completed at that count. */
  ghost predicate UsedOk(num: nat, usedIdx: nat, usedRing: seq<UsedElem>, lastSeen: nat,
                         published: seq<Ticket>, completed: seq<nat>, collected: nat, dev: Device)
  {
    && 0 < num == |usedRing|
    && collected <= |completed|
    && usedIdx == |completed| % WORD && lastSeen == collected % WORD
    && (forall p: nat :: p in dev.work ==> p < |published| && dev.work[p].head == published[p].head)
    && (forall j: nat :: j < |completed| ==> completed[j] < |published|)
    && (forall j: nat :: collected <= j < |completed| ==> usedRing[j % num].id == published[completed[j]].head)
    && (dev.staged.Some? && dev.staged.value in dev.work ==>
          usedRing[|completed| % num].id == dev.work[dev.staged.value].head)
  }

  // ----- What the memory of each holder contains -----

  /** Everything that says what is in the table and in the buffers. */
  datatype Memory = Memory(desc: seq<Desc>, extras: seq<Extra>, mem: map<nat, Buffer>, holder: map<nat, Holder>)

  predicate Bound(m: Memory, i: nat) {
    && i < |m.desc| && i < |m.extras|
    && m.extras[i].vaddr == m.desc[i].addr
    && m.extras[i].vaddr in m.holder && m.extras[i].vaddr in m.mem
    && m.holder[m.extras[i].vaddr] == AtDesc(i)
  }

  /** Filled for a request: the device may read it. */
  predicate FilledIn(m: Memory, i: nat) {
    Bound(m, i) && m.desc[i].len == REQUEST_SIZE && m.desc[i].flags == 0
  }

  /** Filled for a response: the device may write it. */
  predicate FilledOut(m: Memory, i: nat) {
    Bound(m, i) && m.desc[i].len == RESPONSE_SIZE && m.desc[i].flags == F_WRITE
  }

  predicate Zero(m: Memory, i: nat) {
    i < |m.desc| && i < |m.extras| && m.desc[i] == ZERO_DESC && m.extras[i] == ZERO_EXTRA
  }

  predicate NoBuffer(m: Memory, i: nat) {
    forall b: nat :: b in m.holder ==> m.holder[b] != AtDesc(i)
  }

  predicate Carries(m: Memory, i: nat, content: Buffer) {
    Bound(m, i) && m.mem[m.extras[i].vaddr] == content
  }

  predicate Tagged(m: Memory, i: nat, c: nat) {
    i < |m.extras| && m.extras[i].context == Some(c)
  }

  predicate Paired(m: Memory, i0: nat, i1: nat) {
    && Bound(m, i0) && Bound(m, i1)
    && m.desc[i0].len == REQUEST_SIZE && m.desc[i0].flags == F_NEXT && m.desc[i0].next == i1
    && m.desc[i1].len == RESPONSE_SIZE && m.desc[i1].flags == F_WRITE
  }

  predicate FirstOk(m: Memory, first: Option<nat>) {
    first.Some? ==> FilledIn(m, first.value)
  }

  ghost predicate CallerMem(m: Memory, c: nat, pc: Caller) {
    match pc
    case Take(_, first) => FirstOk(m, first)
    case MapIn(_, first, i) => FirstOk(m, first) && Zero(m, i) && NoBuffer(m, i)
    case FillIn(_, first, i, b) =>
      FirstOk(m, first) && Zero(m, i) && NoBuffer(m, i) && b in m.holder && m.holder[b] == AtCaller(c)
    case Write(_, i0, i1) => FilledIn(m, i0) && FilledOut(m, i1)
    case Tag(req, i0, i1) => FilledIn(m, i0) && FilledOut(m, i1) && Carries(m, i0, req)
    case Link(req, i0, i1) => FilledIn(m, i0) && FilledOut(m, i1) && Carries(m, i0, req) && Tagged(m, i0, c)
    case Ring(req, i0, i1) => Paired(m, i0, i1) && Carries(m, i0, req) && Tagged(m, i0, c)
    case Bump(req, i0, i1) => Paired(m, i0, i1) && Carries(m, i0, req) && Tagged(m, i0, c)
    case Undo(i, Unmap, _) => Bound(m, i)
    case Undo(i, Clear, _) => InMemory(m, i) && NoBuffer(m, i)
    case Undo(i, Give, _) => Zero(m, i) && NoBuffer(m, i)
    case _ => true
  }

  predicate InMemory(m: Memory, i: nat) {
    i < |m.desc| && i < |m.extras|
  }

  /** A published chain that is not yet handled: linked, carrying its request, its context and any response. */
  ghost predicate TicketMem(m: Memory, t: Ticket, p: nat, served: map<nat, Served>) {
    && Paired(m, t.head, t.tail)
    && Carries(m, t.head, t.req)
    && Tagged(m, t.head, t.caller)
    && (p in served ==> Carries(m, t.tail, Response(served[p].status, served[p].value)))
  }

  ghost predicate HandlerMem(m: Memory, ist: Ist, published: seq<Ticket>, served: map<nat, Served>) {
    match ist
    case Found(i0, i1, p) => p < |published| && published[p].head == i0 && published[p].tail == i1
        && TicketMem(m, published[p], p, served)
    case CopyValue(i0, i1, c, p) =>
      p < |published| && published[p].head == i0 && published[p].tail == i1 && published[p].caller == c
          && TicketMem(m, published[p], p, served)
    case Post(i0, i1, c, p) =>
      p < |published| && published[p].head == i0 && published[p].tail == i1 && published[p].caller == c
          && TicketMem(m, published[p], p, served)
    case Freeing(i, Unmap, rest) => Bound(m, i) && (rest.Some? ==> Bound(m, rest.value))
    case Freeing(i, Clear, rest) => InMemory(m, i) && NoBuffer(m, i) && (rest.Some? ==> Bound(m, rest.value))
    case Freeing(i, Give, rest) => Zero(m, i) && NoBuffer(m, i) && (rest.Some? ==> Bound(m, rest.value))
    case _ => true
  }

  /** Every mapped buffer is accounted for: at a descriptor that records it, or in the hands of the caller that mapped
      it. */
  ghost predicate HolderOk(m: Memory, callers: seq<Caller>) {
    && m.holder.Keys == m.mem.Keys && 0 !in m.mem
    && |m.desc| == |m.extras|
    && (forall b: nat :: b in m.holder ==>
          match m.holder[b]
          case AtDesc(i) => i < |m.extras| && m.extras[i].vaddr == b
          case AtCaller(c) => c < |callers| && callers[c].FillIn? && callers[c].b == b)
  }

  ghost predicate CallersMem(m: Memory, callers: seq<Caller>) {
    forall c: nat :: c < |callers| ==> CallerMem(m, c, callers[c])
  }

  ghost predicate TicketsMem(m: Memory, published: seq<Ticket>, stage: seq<Stage>, served: map<nat, Served>) {
    && |stage| == |published|
    && forall p: nat :: p < |published| && Outstanding(stage, p) ==> TicketMem(m, published[p], p, served)
  }

  // ----- Contexts and delivery -----

  /** The chain whose completion is being handed over. */
  function Handled(ist: Ist): Option<nat> {
    match ist
    case Found(_, _, p) => Some(p)
    case CopyValue(_, _, _, p) => Some(p)
    case Post(_, _, _, p) => Some(p)
    case _ => None
  }

  /** Collected and handed over. */
  predicate Settled(stage: seq<Stage>, ist: Ist, p: nat) {
    p < |stage| && stage[p].Collected? && Handled(ist) != Some(p)
  }

  predicate IsMine(published: seq<Ticket>, p: nat, c: nat, req: Buffer) {
    p < |published| && published[p].caller == c && published[p].req == req
  }

  predicate Pending(pc: Caller, p: nat) {
    (pc.Notify? && pc.p == p) || (pc.Wait? && pc.p == p)
  }

  ghost predicate CallerCtx(c: nat, pc: Caller, contexts: map<nat, Context>,
                            published: seq<Ticket>, stage: seq<Stage>, served: map<nat, Served>, ist: Ist)
  {
    match pc
    case Idle(Returned(req, p, rc, value)) =>
      && IsMine(published, p, c, req) && Settled(stage, ist, p) && p in served
      && rc == (if served[p].status == STATUS_OK then EOK else EIO)
      && value == served[p].value
    case Idle(_) => true
    case Notify(req, p) => PendingOk(c, req, p, contexts, published, stage, served, ist)
    case Wait(req, p) => PendingOk(c, req, p, contexts, published, stage, served, ist)
    case _ => c in contexts && contexts[c].sem == 0
  }

  /** A waiting caller: its semaphore is posted exactly when its chain is settled, and then its context holds
      what the device answered to its own request. */
  ghost predicate PendingOk(c: nat, req: Buffer, p: nat, contexts: map<nat, Context>,
                            published: seq<Ticket>, stage: seq<Stage>, served: map<nat, Served>, ist: Ist)
  {
    && IsMine(published, p, c, req)
    && c in contexts
    && if Settled(stage, ist, p) then
         p in served && contexts[c] == Context(served[p].status, served[p].value, 1)
       else contexts[c].sem == 0
  }

  ghost predicate ContextsOk(callers: seq<Caller>, contexts: map<nat, Context>,
                             published: seq<Ticket>, stage: seq<Stage>, served: map<nat, Served>, ist: Ist)
  {
    && |stage| == |published|
    && (forall c: nat :: c in contexts <==> c < |callers| && !callers[c].Idle?)
    && (forall c: nat :: c < |callers| ==> CallerCtx(c, callers[c], contexts, published, stage, served, ist))
    && (forall p: nat :: p < |published| && !Settled(stage, ist, p) ==>
          published[p].caller < |callers| && Pending(callers[published[p].caller], p))
  }

  /** Half-done hand-overs: what has been copied so far is what the device wrote. */
  ghost predicate HandOverOk(ist: Ist, contexts: map<nat, Context>, stage: seq<Stage>, completed: seq<nat>,
                             collected: nat, served: map<nat, Served>, delivered: seq<nat>)
  {
    && collected <= |completed|
    && (Handled(ist).Some? ==>
          && collected > 0 && completed[collected - 1] == Handled(ist).value
          && Handled(ist).value < |stage| && stage[Handled(ist).value].Collected?
          && Handled(ist).value in served)
    && delivered == completed[..if Handled(ist).Some? then collected - 1 else collected]
    && (ist.CopyValue? ==> ist.c in contexts && contexts[ist.c].status == served[ist.p].status)
    && (ist.Post? ==>
          && ist.c in contexts && contexts[ist.c].status == served[ist.p].status
          && contexts[ist.c].value == served[ist.p].value)
  }

  // ----- Signals -----

  /** A completion that is not collected has its interrupt on the way, or a thread that will still look. */
  predicate IrqOk(completed: nat, collected: nat, irq: bool, mustRaise: bool, ist: Ist) {
    completed > collected ==> irq || mustRaise || !ist.Waiting?
  }

  /** If the device sleeps, the callers of all chains it has not taken are still about to notify it. */
  ghost predicate KickOk(awake: bool, taken: nat, published: seq<Ticket>, callers: seq<Caller>) {
    !awake ==> forall p: nat :: taken <= p < |published| ==>
      published[p].caller < |callers| && callers[published[p].caller].Notify? && callers[published[p].caller].p == p
  }

  function MemoryOf(s: State): Memory {
    Memory(s.vq.desc, s.vq.extras, s.vq.mem, s.h.holder)
  }

  ghost predicate Inv(s: State) {
    && !s.fault
    && TableOk(s.vq, s.h.owner)
    && FreeOk(s.vq.free, s.h.owner, s.vq.desc, s.vq.extras)
    && CallersOk(s.callers, s.h.owner)
    && HandlerOk(s.ist, s.h.owner)
    && FlightOk(s.h.published, s.h.stage, s.h.collected, s.h.owner)
    && StageOk(s.h.stage, s.dev, s.h.completed, s.h.collected)
    && ServedOk(s.h.published, s.h.stage, s.dev.work, s.h.served)
    && AvailOk(s.vq.num, s.vq.availIdx, s.vq.availRing, s.h.published, s.dev.taken)
    && BumpOk(s.vq.num, s.vq.availRing, |s.h.published|, s.callers, s.lock)
    && UsedOk(s.vq.num, s.vq.usedIdx, s.vq.usedRing, s.vq.lastSeen, s.h.published, s.h.completed, s.h.collected, s.dev)
    && HolderOk(MemoryOf(s), s.callers)
    && CallersMem(MemoryOf(s), s.callers)
    && TicketsMem(MemoryOf(s), s.h.published, s.h.stage, s.h.served)
    && HandlerMem(MemoryOf(s), s.ist, s.h.published, s.h.served)
    && ContextsOk(s.callers, s.contexts, s.h.published, s.h.stage, s.h.served, s.ist)
    && HandOverOk(s.ist, s.contexts, s.h.stage, s.h.completed, s.h.collected, s.h.served, s.h.delivered)
    && IrqOk(|s.h.completed|, s.h.collected, s.irq, s.dev.mustRaise, s.ist)
    && KickOk(s.dev.awake, s.dev.taken, s.h.published, s.callers)
  }
}
