/** The layers meet: what one uninterrupted call of gpio.c does is what the protocol's steps of that call come
    to when nobody else moves, and every reachable state of the protocol is one those calls may start from. */
module Refinement {
  import opened Words
  import opened VirtqSpec
  import opened Protocol
  import opened Invariant
  import opened Frames
  import opened Reach
  import opened Changes
  import opened GpioSpec
  import Safety
  import Liveness
  import opened Gpios
  import opened Virtqs

  // ----- Runs -----

  lemma {:induction false} LeadsJoin(s: State, a: seq<Step>, t: State, b: seq<Step>, u: State)
    requires Leads(s, a, t) && Leads(t, b, u)
    ensures Leads(s, a + b, u)
    decreases |a|
  {
    hide Next, Enabled;
    if a == [] {
      assert a + b == b;
    } else {
      LeadsJoin(Next(s, a[0]), a[1..], t, b, u);
      assert (a + b)[1..] == a[1..] + b;
    }
  }

  lemma LeadsOne(s: State, step: Step)
    requires Enabled(s, step)
    ensures Leads(s, [step], Next(s, step))
  {
    hide Next, Enabled;
    assert [step][1..] == [];
    assert Leads(Next(s, step), [], Next(s, step));
  }

  lemma LeadsTwo(s: State, a: Step, b: Step)
    requires Enabled(s, a) && Enabled(Next(s, a), b)
    ensures Leads(s, [a, b], Next(Next(s, a), b))
  {
    hide Next, Enabled;
    LeadsOne(s, a);
    LeadsOne(Next(s, a), b);
    LeadsJoin(s, [a], Next(s, a), [b], Next(Next(s, a), b));
  }

  lemma LeadsThree(s: State, a: Step, b: Step, c: Step)
    requires Enabled(s, a) && Enabled(Next(s, a), b) && Enabled(Next(Next(s, a), b), c)
    ensures Leads(s, [a, b, c], Next(Next(Next(s, a), b), c))
  {
    hide Next, Enabled;
    LeadsTwo(s, a, b);
    LeadsOne(Next(Next(s, a), b), c);
    LeadsJoin(s, [a, b], Next(Next(s, a), b), [c], Next(Next(Next(s, a), b), c));
  }

  // ----- The protocol starts from what virtq_create leaves -----

  /** For every allowed size and number of callers the protocol can start on a new queue. */
  lemma StartsFromCreated(num: nat, callers: nat) returns (s: State)
    requires IsPow2(num) && num <= 32768
    ensures Init(s) && Reachable(s) && s.vq == Empty(num) && |s.callers| == callers
  {
    var h := History([], [], [], 0, map[], [], seq(num, _ => Free), map[]);
    s := State(Empty(num), None, seq(callers, _ => Idle(NoCall)), map[], Device(0, map[], None, false, false), false,
        Waiting, false, h);
    assert Leads(s, [], s);
  }

  // ----- The protocol keeps the queue well formed -----

  /** Every reachable queue is one the operations of virtq.c accept, and its free entries are all zero. */
  lemma ReachableQueue(s: State)
    requires Reachable(s)
    ensures WF(s.vq) && FreeZero(s.vq)
  {
    hide Reachable, Inv, WF;
    ReachableInv(s);
    QueueWF(s);
  }

  lemma QueueWF(s: State)
    requires Inv(s)
    ensures WF(s.vq) && FreeZero(s.vq)
  {
    hide CallersOk, HandlerOk, FlightOk, StageOk, ServedOk, AvailOk, BumpOk, UsedOk, CallersMem, TicketsMem;
    hide HandlerMem, ContextsOk, HandOverOk, KickOk, CallerMem;
    InvShape(s);
  }

  // ----- What the drain finds in a reachable state -----

  /** The completion counted `j`, as the handler will find it. */
  function EntryOf(s: State, j: nat): Entry
    requires j < |s.h.completed| && s.h.completed[j] < |s.h.published|
    requires InTable(s.vq, s.h.published[s.h.completed[j]].head) && InTable(s.vq, s.h.published[s.h.completed[j]].tail)
  {
    var t := s.h.published[s.h.completed[j]];
    Entry(t.head, t.tail, t.caller, s.vq.extras[t.head].vaddr, s.vq.extras[t.tail].vaddr)
  }

  /** `es` lists the completions the driver has not collected, in the order the device published them. */
  ghost predicate Uncollected(s: State, es: seq<Entry>) {
    && s.h.collected <= |s.h.completed| && |es| == |s.h.completed| - s.h.collected
    && forall j: nat {:trigger es[j]} :: j < |es| ==>
         && s.h.completed[s.h.collected + j] < |s.h.published|
         && InTable(s.vq, s.h.published[s.h.completed[s.h.collected + j]].head)
         && InTable(s.vq, s.h.published[s.h.completed[s.h.collected + j]].tail)
         && es[j] == EntryOf(s, s.h.collected + j)
  }

  /** A published chain that is not yet handled is an entry for the handler. */
  lemma OutstandingEntry(s: State, j: nat)
    requires s.h.collected <= j < |s.h.completed|
    requires Inv(s)
    ensures var p := s.h.completed[j];
            && p < |s.h.published| && p < |s.h.stage| && s.h.stage[p] == Used(j)
            && InTable(s.vq, s.h.published[p].head) && InTable(s.vq, s.h.published[p].tail)
            && s.h.published[p].head < |s.h.owner| && s.h.published[p].tail < |s.h.owner|
            && s.h.published[p].head != s.h.published[p].tail
            && s.h.owner[s.h.published[p].head] == s.h.owner[s.h.published[p].tail] == InFlight(p)
            && Paired(MemoryOf(s), s.h.published[p].head, s.h.published[p].tail)
            && s.vq.extras[s.h.published[p].head].context == Some(s.h.published[p].caller)
  {
    hide FreeOk, CallersOk, HandlerOk, ServedOk, AvailOk, BumpOk, UsedOk, HolderOk, CallersMem;
    hide HandlerMem, ContextsOk, HandOverOk, KickOk, CallerMem, Paired, Carries;
    var p := s.h.completed[j];
    assert Outstanding(s.h.stage, p);
    assert TicketMem(MemoryOf(s), s.h.published[p], p, s.h.served);
    PairedInTable(MemoryOf(s), s.h.published[p].head, s.h.published[p].tail);
  }

  lemma PairedInTable(m: Memory, i0: nat, i1: nat)
    requires Paired(m, i0, i1)
    ensures InMemory(m, i0) && InMemory(m, i1)
  {
  }

  /** Its context belongs to a caller that waits for it and nothing else. */
  lemma OutstandingContext(s: State, p: nat)
    requires p < |s.h.published| && Outstanding(s.h.stage, p)
    requires Inv(s)
    ensures var c := s.h.published[p].caller;
            c in s.contexts && c < |s.callers| && Pending(s.callers[c], p)
  {
    hide FreeOk, CallersOk, HandlerOk, FlightOk, StageOk, ServedOk, AvailOk, BumpOk, UsedOk, HolderOk;
    hide CallersMem, TicketsMem, HandlerMem, HandOverOk, KickOk, CallerMem, CallerCtx;
    assert !Settled(s.h.stage, s.ist, p);
  }

  /** The head in the slot for the unbounded count `k`. */
  function UsedHeadAt(v: Vq, k: nat): nat
    requires 0 < v.num == |v.usedRing|
  {
    v.usedRing[k % v.num].id
  }

  lemma PendingSlot(s: State, k: nat)
    requires s.h.collected <= k < |s.h.completed| && s.h.completed[k] < |s.h.published|
    requires Inv(s)
    ensures 0 < s.vq.num == |s.vq.usedRing| && IsPow2(s.vq.num) && s.vq.num <= WORD
    ensures UsedHeadAt(s.vq, k) == s.h.published[s.h.completed[k]].head
  {
    hide FreeOk, CallersOk, HandlerOk, FlightOk, StageOk, ServedOk, AvailOk, BumpOk, HolderOk, CallersMem;
    hide TicketsMem, HandlerMem, ContextsOk, HandOverOk, KickOk, CallerMem;
  }

  lemma HeadAtCount(v: Vq, collected: nat, j: nat)
    requires ShapeOk(v) && IsPow2(v.num) && v.lastSeen == collected % WORD
    ensures HeadAt(v, j) == UsedHeadAt(v, collected + j) % WORD
  {
    AddWrapped(collected, j);
    SlotOfWrapped(collected + j, v.num);
  }

  /** Each pending slot of the used ring names the completion published at that count. */
  lemma PendingHead(s: State, j: nat)
    requires s.h.collected + j < |s.h.completed| && ShapeOk(s.vq)
    requires Inv(s)
    ensures s.h.completed[s.h.collected + j] < |s.h.published|
    ensures HeadAt(s.vq, j) == s.h.published[s.h.completed[s.h.collected + j]].head
  {
    hide Inv, HeadAt, UsedHeadAt;
    InvShape(s);
    OutstandingEntry(s, s.h.collected + j);
    PendingSlot(s, s.h.collected + j);
    HeadAtCount(s.vq, s.h.collected, j);
  }

  /** The entries of a reachable state are ready for the drain: each is whole, and no two share anything. */
  lemma DrainStartsReady(s: State) returns (es: seq<Entry>)
    requires Reachable(s)
    ensures Uncollected(s, es) && Ready(Gpio(s.vq, s.contexts), es)
  {
    hide Reachable, Inv, WF, Ready, HeadAt, EntryOf;
    ReachableInv(s);
    QueueWF(s);
    Safety.EmptyIsExactInv(s);
    forall j: nat | s.h.collected <= j < |s.h.completed|
      ensures s.h.completed[j] < |s.h.published| && InTable(s.vq, s.h.published[s.h.completed[j]].head)
           && InTable(s.vq, s.h.published[s.h.completed[j]].tail)
    {
      OutstandingEntry(s, j);
    }
    es := seq(|s.h.completed| - s.h.collected,
              j requires 0 <= j < |s.h.completed| - s.h.collected => EntryOf(s, s.h.collected + j));
    UncollectedReady(s, es);
  }

  lemma UncollectedReady(s: State, es: seq<Entry>)
    requires Uncollected(s, es)
    requires Inv(s)
    ensures Ready(Gpio(s.vq, s.contexts), es)
  {
    hide Inv, WF, HeadAt, EntryOf, IsEntry, Apart;
    QueueWF(s);
    InvShape(s);
    Safety.EmptyIsExactInv(s);
    var g := Gpio(s.vq, s.contexts);
    forall j: nat | j < |es| ensures IsEntry(g, HeadAt(g.vq, j), es[j]) {
      PendingHead(s, j);
      OutstandingEntry(s, s.h.collected + j);
      EntryIsWhole(s, s.h.collected + j);
    }
    forall j: nat, k: nat | j < k < |es| ensures Apart(es[j], es[k]) {
      OutstandingEntry(s, s.h.collected + j);
      OutstandingEntry(s, s.h.collected + k);
      EntriesApart(s, s.h.collected + j, s.h.collected + k);
    }
  }

  lemma EntryIsWhole(s: State, j: nat)
    requires s.h.collected <= j < |s.h.completed| && s.h.completed[j] < |s.h.published| && ShapeOk(s.vq)
    requires InTable(s.vq, s.h.published[s.h.completed[j]].head) && InTable(s.vq, s.h.published[s.h.completed[j]].tail)
    requires Inv(s)
    ensures IsEntry(Gpio(s.vq, s.contexts), s.h.published[s.h.completed[j]].head, EntryOf(s, j))
  {
    hide Inv;
    FlagFacts(0);
    OutstandingEntry(s, j);
    OutstandingContext(s, s.h.completed[j]);
  }

  lemma EntriesApart(s: State, j: nat, k: nat)
    requires s.h.collected <= j < k < |s.h.completed|
    requires s.h.completed[j] < |s.h.published| && s.h.completed[k] < |s.h.published|
    requires InTable(s.vq, s.h.published[s.h.completed[j]].head) && InTable(s.vq, s.h.published[s.h.completed[j]].tail)
    requires InTable(s.vq, s.h.published[s.h.completed[k]].head) && InTable(s.vq, s.h.published[s.h.completed[k]].tail)
    requires Inv(s)
    ensures Apart(EntryOf(s, j), EntryOf(s, k))
  {
    hide Inv;
    OutstandingEntry(s, j);
    OutstandingEntry(s, k);
    OutstandingContext(s, s.h.completed[j]);
    OutstandingContext(s, s.h.completed[k]);
  }

  // ----- One round of the drain -----

  const ROUND: seq<Step> := [IGet, IStatus, IValue, IPost, IFree, IFree, IFree, IFree, IFree, IFree]

  /** Freeing one descriptor takes three steps when its buffer is mapped. */
  lemma FreeRuns(s: State) returns (s': State)
    requires s.ist.Freeing? && s.ist.phase.Unmap? && InTable(s.vq, s.ist.i)
    requires s.vq.extras[s.ist.i].vaddr in s.vq.mem
    ensures Leads(s, [IFree, IFree, IFree], s')
    ensures s'.vq == FreeDesc(s.vq, s.ist.i).0
    ensures s'.ist == match s.ist.rest case None => Drain case Some(i1) => Freeing(i1, Unmap, None)
    ensures s'.contexts == s.contexts && s'.lock == s.lock && s'.fault == s.fault
    ensures s'.h.collected == s.h.collected && s'.h.completed == s.h.completed && s'.callers == s.callers
    ensures OwnersElsewhere(s.h.owner, s'.h.owner, {s.ist.i})
  {
    hide Leads, Next;
    var s1 := HandlerFree(s);
    var s2 := HandlerFree(s1);
    s' := HandlerFree(s2);
    ThreadNext(s);
    ThreadNext(s1);
    ThreadNext(s2);
    LeadsThree(s, IFree, IFree, IFree);
  }

  /** The callback's three steps. */
  lemma CallbackRuns(s: State, e: Entry) returns (s': State)
    requires s.ist.Found? && s.ist.i0 == e.head && s.ist.i1 == e.tail && ShapeOk(s.vq)
    requires IsEntry(Gpio(s.vq, s.contexts), e.head, e)
    ensures Leads(s, [IStatus, IValue, IPost], s')
    ensures s'.ist == Freeing(e.head, Unmap, Some(e.tail))
    ensures e.b1 in s.vq.mem && s'.contexts == Callback(s.contexts, e.c, s.vq.mem[e.b1])
    ensures s'.vq == s.vq && s'.lock == s.lock && s'.fault == s.fault && s'.callers == s.callers
    ensures s'.h.collected == s.h.collected && s'.h.completed == s.h.completed && s'.h.owner == s.h.owner
  {
    hide Leads, Next;
    var s1 := CopyStatus(s);
    var s2 := CopyVal(s1);
    s' := PostSem(s2);
    ThreadNext(s);
    ThreadNext(s1);
    ThreadNext(s2);
    LeadsThree(s, IStatus, IValue, IPost);
  }

  /** The thread is at the top of its drain loop, nobody holds the queue lock, and `es` is pending. */
  ghost predicate AtDrain(s: State, es: seq<Entry>) {
    && s.ist.Drain? && s.lock.None? && !s.fault
    && s.h.collected <= |s.h.completed| && |es| == |s.h.completed| - s.h.collected
    && Ready(Gpio(s.vq, s.contexts), es)
    && HeadsFly(s.h.owner, es)
  }

  /** The entries are chains in flight. */
  predicate HeadsFly(owner: seq<Owner>, es: seq<Entry>) {
    forall j :: 0 <= j < |es| ==> es[j].head < |owner| && owner[es[j].head].InFlight?
  }

  /** Owners change only at the given descriptors. */
  predicate OwnersElsewhere(owner: seq<Owner>, owner': seq<Owner>, held: set<nat>) {
    |owner'| == |owner| && forall i: nat :: i < |owner| && i !in held ==> owner'[i] == owner[i]
  }

  lemma RestFlies(g: Gpio, owner: seq<Owner>, owner': seq<Owner>, es: seq<Entry>)
    requires Ready(g, es) && es != [] && HeadsFly(owner, es) && OwnersElsewhere(owner, owner', {es[0].head, es[0].tail})
    ensures HeadsFly(owner', es[1..])
  {
    hide IsEntry, WF;
    forall j | 0 <= j < |es[1..]| ensures es[1..][j].head < |owner'| && owner'[es[1..][j].head].InFlight? {
      assert Apart(es[0], es[j + 1]);
    }
  }

  lemma UncollectedFly(s: State, es: seq<Entry>)
    requires Uncollected(s, es)
    requires Inv(s)
    ensures HeadsFly(s.h.owner, es)
  {
    hide Inv;
    forall j: nat | j < |es| ensures es[j].head < |s.h.owner| && s.h.owner[es[j].head].InFlight? {
      OutstandingEntry(s, s.h.collected + j);
    }
  }

  /** Collecting the next chain. */
  lemma GetRuns(s: State, es: seq<Entry>) returns (s': State)
    requires AtDrain(s, es)
    ensures Leads(s, [IGet], s')
    ensures s'.lock == s.lock && !s'.fault && s'.callers == s.callers && s'.contexts == s.contexts
    ensures s'.h.completed == s.h.completed
    ensures es == [] ==> s'.ist == Waiting && s'.vq == s.vq && s'.h == s.h
    ensures es != [] ==>
      && s'.ist.Found? && s'.ist.i0 == es[0].head && s'.ist.i1 == es[0].tail
      && s'.vq == s.vq.(lastSeen := Inc16(s.vq.lastSeen))
      && s'.h.collected == s.h.collected + 1
      && OwnersElsewhere(s.h.owner, s'.h.owner, {es[0].head, es[0].tail})
  {
    hide Leads, Next, Ready, IsEntry;
    var g := Gpio(s.vq, s.contexts);
    ReadyShape(g, es);
    ThreadNext(s);
    LeadsOne(s, IGet);
    s' := GetChain(s);
    if es == [] {
      NothingPending(g, es);
    } else {
      FrontReads(g, es);
    }
  }

  lemma ReadyShape(g: Gpio, es: seq<Entry>)
    requires Ready(g, es)
    ensures WF(g.vq) && ShapeOk(g.vq) && LinksOk(g.vq.desc)
  {
  }

  /** One round of the drain loop, run by the steps of the interrupt thread alone, does what `HandleOne` says. */
  lemma RoundRuns(s: State, es: seq<Entry>) returns (s': State)
    requires AtDrain(s, es) && es != []
    ensures ShapeOk(s.vq) && IsEntry(Gpio(s.vq, s.contexts), es[0].head, es[0])
    ensures Leads(s, ROUND, s') && AtDrain(s', es[1..])
    ensures Gpio(s'.vq, s'.contexts) == HandleOne(Gpio(s.vq, s.contexts), es[0])
    ensures s'.callers == s.callers
  {
    hide Leads, Next, Ready, Enabled, FreeDesc, Callback;
    var g, e := Gpio(s.vq, s.contexts), es[0];
    ReadyShape(g, es);
    FrontReads(g, es);
    HandleKeepsReady(g, es);
    var s1 := GetRuns(s, es);
    assert IsEntry(Gpio(s1.vq, s1.contexts), e.head, e);
    var s2 := CallbackRuns(s1, e);
    var s3 := FreeRuns(s2);
    SecondStillMapped(s2.vq, e.head, e.tail);
    s' := FreeRuns(s3);
    assert OwnersElsewhere(s.h.owner, s'.h.owner, {e.head, e.tail});
    RestFlies(g, s.h.owner, s'.h.owner, es);
    RoundSteps(s, s1, s2, s3, s');
  }

  lemma SecondStillMapped(v: Vq, i: nat, j: nat)
    requires InTable(v, i) && InTable(v, j) && i != j && v.extras[j].vaddr in v.mem
    requires v.extras[i].vaddr != v.extras[j].vaddr
    ensures InTable(FreeDesc(v, i).0, j) && FreeDesc(v, i).0.extras[j].vaddr in FreeDesc(v, i).0.mem
  {
  }

  lemma RoundSteps(s: State, s1: State, s2: State, s3: State, s': State)
    requires Leads(s, [IGet], s1) && Leads(s1, [IStatus, IValue, IPost], s2)
    requires Leads(s2, [IFree, IFree, IFree], s3) && Leads(s3, [IFree, IFree, IFree], s')
    ensures Leads(s, ROUND, s')
  {
    hide Leads;
    LeadsJoin(s, [IGet], s1, [IStatus, IValue, IPost], s2);
    LeadsJoin(s, [IGet] + [IStatus, IValue, IPost], s2, [IFree, IFree, IFree], s3);
    LeadsJoin(s, [IGet] + [IStatus, IValue, IPost] + [IFree, IFree, IFree], s3, [IFree, IFree, IFree], s');
    assert [IGet] + [IStatus, IValue, IPost] + [IFree, IFree, IFree] + [IFree, IFree, IFree] == ROUND;
  }

  /** The steps of a whole drain: one round per pending completion, then the look that finds none. */
  function DrainSteps(rounds: nat): seq<Step> {
    if rounds == 0 then [IGet] else ROUND + DrainSteps(rounds - 1)
  }

  /** The drain loop of the source, run without interference, is a run of the protocol, and comes to `Drained`. */
  lemma {:induction false} DrainRuns(s: State, es: seq<Entry>) returns (s': State)
    requires AtDrain(s, es)
    ensures Ready(Gpio(s.vq, s.contexts), es)
    ensures Leads(s, DrainSteps(|es|), s') && s'.ist == Waiting && s'.lock.None? && !s'.fault && s'.callers == s.callers
    ensures Gpio(s'.vq, s'.contexts) == Drained(Gpio(s.vq, s.contexts), es)
    decreases |es|
  {
    hide Leads, Ready, HandleOne, IsEntry;
    if es == [] {
      s' := GetRuns(s, es);
    } else {
      var s1 := RoundRuns(s, es);
      FirstRound(Gpio(s.vq, s.contexts), es);
      s' := DrainRuns(s1, es[1..]);
      LeadsJoin(s, ROUND, s1, DrainSteps(|es| - 1), s');
    }
  }

  /** From any reachable state with the thread at its drain and the lock free, the protocol can run the whole
      drain loop; it delivers exactly what the loop's specification says and the thread goes back to waiting. */
  lemma DrainRefines(s: State) returns (es: seq<Entry>, s': State)
    requires Reachable(s) && s.ist.Drain? && s.lock.None?
    ensures Uncollected(s, es) && Ready(Gpio(s.vq, s.contexts), es)
    ensures Leads(s, DrainSteps(|es|), s') && Reachable(s')
    ensures s'.ist == Waiting && s'.callers == s.callers
    ensures Gpio(s'.vq, s'.contexts) == Drained(Gpio(s.vq, s.contexts), es)
  {
    hide Reachable, Leads, Ready, Inv;
    es := DrainStartsReady(s);
    ReachableInv(s);
    UncollectedFly(s, es);
    Safety.NeverFaults(s);
    s' := DrainRuns(s, es);
    Liveness.RunReachable(s, DrainSteps(|es|), s');
  }

  // ----- One request -----

  /** All the steps are caller `c`'s. */
  predicate OwnSteps(steps: seq<Step>, c: nat) {
    forall k :: 0 <= k < |steps| ==> ByCaller(steps[k]) && steps[k].c == c
  }

  /** Where a caller goes when an allocation of its request fails. */
  function AfterFailure(first: Option<nat>, err: Errno): Caller {
    match first case None => Idle(Failed(err)) case Some(i0) => Undo(i0, Unmap, err)
  }

  function AfterAlloc(req: Buffer, first: Option<nat>, i: nat): Caller {
    match first case None => Take(req, Some(i)) case Some(i0) => Write(req, i0, i)
  }

  function AllocSteps(v: Vq, c: nat, os: MapOutcome): seq<Step> {
    if v.free == [] then [STake(c)]
    else match os
      case MapFailed(err) => [STake(c), SMapFail(c, err)]
      case Mapped(b) => [STake(c), SMap(c, b), SFill(c)]
  }

  /** Taking an index, then mapping its buffer and filling its entry. */
  lemma MappedRuns(s: State, c: nat, b: nat) returns (s': State)
    requires At(s, c) && s.callers[c].Take? && s.vq.free != [] && InTable(s.vq, s.vq.free[0]) && !s.fault
    requires b != 0 && b !in s.vq.mem
    ensures Leads(s, [STake(c), SMap(c, b), SFill(c)], s') && !s'.fault && s'.lock == s.lock
            && s'.h.published == s.h.published
    ensures var first := s.callers[c].first; var i := s.vq.free[0];
            && s'.vq == FillDesc(MapBuffer(TakeFree(s.vq), b), i, b, if first.None? then REQUEST_SIZE
                 else RESPONSE_SIZE, first.Some?)
            && s'.callers == s.callers[c := AfterAlloc(s.callers[c].req, first, i)]
            && s'.contexts == s.contexts
  {
    hide Leads, Next, FillDesc;
    CallerNext(s, c);
    var s1 := TakeDesc(s, c);
    CallerNext(s1, c);
    var s2 := MapDesc(s1, c, b);
    CallerNext(s2, c);
    s' := Fill(s2, c);
    LeadsThree(s, STake(c), SMap(c, b), SFill(c));
  }

  /** Taking an index and giving it back because the mapping failed. */
  lemma UnmappedRuns(s: State, c: nat, err: Errno) returns (s': State)
    requires At(s, c) && s.callers[c].Take? && s.vq.free != [] && err != EOK && !s.fault
    ensures Leads(s, [STake(c), SMapFail(c, err)], s') && !s'.fault && s'.lock == s.lock
            && s'.h.published == s.h.published
    ensures s'.vq == ReturnFree(TakeFree(s.vq), s.vq.free[0])
    ensures var first := s.callers[c].first;
            && s'.callers == s.callers[c := AfterFailure(first, err)]
            && s'.contexts == if first.None? then s.contexts - {c} else s.contexts
  {
    hide Leads, Next, ReturnFree;
    CallerNext(s, c);
    var s1 := TakeDesc(s, c);
    CallerNext(s1, c);
    s' := MapFail(s1, c, err);
    LeadsTwo(s, STake(c), SMapFail(c, err));
  }

  /** The steps of one allocation come to `AllocDesc`. */
  lemma AllocRuns(s: State, c: nat, os: MapOutcome) returns (s': State)
    requires At(s, c) && s.callers[c].Take? && WF(s.vq) && !s.fault
    requires (os.Mapped? ==> os.addr != 0 && os.addr !in s.vq.mem) && (os.MapFailed? ==> os.err != EOK)
    ensures Leads(s, AllocSteps(s.vq, c, os), s') && !s'.fault && s'.lock == s.lock && s'.h.published == s.h.published
    ensures var first := s.callers[c].first; var len := if first.None? then REQUEST_SIZE else RESPONSE_SIZE;
            var (v, rc, i) := AllocDesc(s.vq, len, first.Some?, os);
            && s'.vq == v
            && s'.callers == s.callers[c := if rc == EOK then AfterAlloc(s.callers[c].req, first, i)
                 else AfterFailure(first, rc)]
            && s'.contexts == if rc != EOK && first.None? then s.contexts - {c} else s.contexts
  {
    hide Leads, Next, FillDesc, MapBuffer, ReturnFree, TakeFree;
    if s.vq.free == [] {
      CallerNext(s, c);
      LeadsOne(s, STake(c));
      s' := TakeDesc(s, c);
    } else {
      match os
      case MapFailed(err) => s' := UnmappedRuns(s, c, err);
      case Mapped(b) => s' := MappedRuns(s, c, b);
    }
  }

  /** The rollback's steps come to `FreeDesc`. */
  lemma UndoRuns(s: State, c: nat) returns (s': State)
    requires At(s, c) && s.callers[c].Undo? && s.callers[c].phase.Unmap? && InTable(s.vq, s.callers[c].i) && !s.fault
    requires s.vq.extras[s.callers[c].i].vaddr in s.vq.mem
    ensures Leads(s, [SUndo(c), SUndo(c), SUndo(c)], s') && !s'.fault && s'.lock == s.lock
    ensures s'.vq == FreeDesc(s.vq, s.callers[c].i).0
    ensures s'.callers == s.callers[c := Idle(Failed(s.callers[c].err))] && s'.contexts == s.contexts - {c}
  {
    hide Leads, Next;
    CallerNext(s, c);
    var s1 := UndoStep(s, c);
    CallerNext(s1, c);
    var s2 := UndoStep(s1, c);
    CallerNext(s2, c);
    s' := UndoStep(s2, c);
    LeadsThree(s, SUndo(c), SUndo(c), SUndo(c));
  }

  /** Writing the request, recording the context and chaining. */
  lemma LinkRuns(s: State, c: nat) returns (s': State)
    requires At(s, c) && s.callers[c].Write? && ShapeOk(s.vq)
    requires var i0, i1 := s.callers[c].i0, s.callers[c].i1;
             i0 < s.vq.num && i1 < s.vq.num && s.vq.extras[i0].vaddr in s.vq.mem
    ensures var pc := s.callers[c]; var v := SetContext(WriteBuffer(s.vq, s.vq.extras[pc.i0].vaddr, pc.req), pc.i0, c);
            && Leads(s, [SWrite(c), STag(c), SLink(c)], s')
            && s' == s.(vq := v.(desc := LinkChain(v.desc, [pc.i0, pc.i1])),
                 callers := s.callers[c := Ring(pc.req, pc.i0, pc.i1)])
  {
    hide Leads, Next, LinkChain;
    CallerNext(s, c);
    var s1 := WriteRequest(s, c);
    CallerNext(s1, c);
    var s2 := TagContext(s1, c);
    CallerNext(s2, c);
    s' := LinkPair(s2, c);
    LeadsThree(s, SWrite(c), STag(c), SLink(c));
  }

  /** Publishing a chained pair. */
  lemma RingRuns(s: State, c: nat) returns (s': State)
    requires At(s, c) && s.callers[c].Ring? && ShapeOk(s.vq) && !s.fault && s.lock.None?
    ensures var pc := s.callers[c];
            && Leads(s, [SRing(c), SBump(c)], s') && !s'.fault && s'.lock.None?
            && s'.vq == BumpAvail(RingWrite(s.vq, pc.i0))
            && s'.callers == s.callers[c := Notify(pc.req, |s.h.published|)]
            && s'.h.published == s.h.published + [Ticket(pc.i0, pc.i1, c, pc.req)]
            && s'.contexts == s.contexts
  {
    hide Leads, Next, RingWrite, BumpAvail;
    CallerNext(s, c);
    var s1 := WriteRing(s, c);
    CallerNext(s1, c);
    s' := Publish(s1, c);
    LeadsTwo(s, SRing(c), SBump(c));
  }

  /** Writing, tagging, chaining and publishing come to `PutDescChain` on the tagged queue. */
  lemma PutRuns(s: State, c: nat) returns (s': State)
    requires At(s, c) && s.callers[c].Write? && ShapeOk(s.vq) && !s.fault && s.lock.None?
    requires var i0, i1 := s.callers[c].i0, s.callers[c].i1;
             i0 < s.vq.num && i1 < s.vq.num && s.vq.extras[i0].vaddr in s.vq.mem
    ensures var pc := s.callers[c];
            && Leads(s, [SWrite(c), STag(c), SLink(c)] + [SRing(c), SBump(c)], s') && !s'.fault && s'.lock.None?
            && s'.vq == PutDescChain(SetContext(WriteBuffer(s.vq, s.vq.extras[pc.i0].vaddr, pc.req), pc.i0, c),
                 [pc.i0, pc.i1])
            && s'.callers == s.callers[c := Notify(pc.req, |s.h.published|)]
            && s'.h.published == s.h.published + [Ticket(pc.i0, pc.i1, c, pc.req)]
            && s'.contexts == s.contexts
  {
    hide Leads, Next, LinkChain, BumpAvail, RingWrite;
    var s1 := LinkRuns(s, c);
    s' := RingRuns(s1, c);
    LeadsJoin(s, [SWrite(c), STag(c), SLink(c)], s1, [SRing(c), SBump(c)], s');
  }

  lemma BeginRuns(s: State, c: nat, req: Buffer) returns (s': State)
    requires At(s, c) && s.callers[c].Idle? && Sendable(req)
    ensures Leads(s, [SBegin(c, req)], s')
    ensures s' == s.(callers := s.callers[c := Take(req, None)], contexts := s.contexts[c := Context(0, 0, 0)])
  {
    LeadsOne(s, SBegin(c, req));
    s' := Begin(s, c, req);
  }

  /** When the second allocation failed, the first descriptor still has its buffer. */
  lemma FirstStillMapped(v: Vq, os0: MapOutcome, os1: MapOutcome)
    requires WF(v) && OsOk(v, os0, os1) && v.free != [] && os0.Mapped?
    requires WF(AllocDesc(v, REQUEST_SIZE, false, os0).0)
    requires |v.free| == 1 || os1.MapFailed?
    ensures var v2 := AllocDesc(AllocDesc(v, REQUEST_SIZE, false, os0).0, RESPONSE_SIZE, true, os1).0;
            && InTable(v2, v.free[0]) && v2.extras[v.free[0]].vaddr in v2.mem
  {
    AllocTakesFirst(v, REQUEST_SIZE, false, os0);
    RotatedRest(v, AllocDesc(v, REQUEST_SIZE, false, os0).0, os1);
  }

  /** What the two allocations of a request meet, one after the other. */
  lemma OsEach(v: Vq, os0: MapOutcome, os1: MapOutcome)
    requires WF(v) && OsOk(v, os0, os1)
    ensures (os0.Mapped? ==> os0.addr != 0 && os0.addr !in v.mem) && (os0.MapFailed? ==> os0.err != EOK)
    ensures var (v1, rc, i0) := AllocDesc(v, REQUEST_SIZE, false, os0);
            rc == EOK ==>
              && v.free != [] && os0.Mapped? && i0 == v.free[0]
              && (os1.Mapped? ==> os1.addr != 0 && os1.addr !in v1.mem) && (os1.MapFailed? ==> os1.err != EOK)
              && (AllocDesc(v1, RESPONSE_SIZE, true, os1).1 != EOK ==> |v.free| == 1 || os1.MapFailed?)
  {
  }

  /** The second half of a request: the other allocation, then either the rollback or the publication. */
  lemma SecondHalfRuns(s: State, c: nat, i0: nat, os1: MapOutcome) returns (steps: seq<Step>, s': State)
    requires At(s, c) && s.callers[c].Take? && s.callers[c].first == Some(i0) && s.lock.None? && !s.fault
    requires WF(s.vq) && i0 < s.vq.num
    requires (os1.Mapped? ==> os1.addr != 0 && os1.addr !in s.vq.mem) && (os1.MapFailed? ==> os1.err != EOK)
    requires var v2 := AllocDesc(s.vq, RESPONSE_SIZE, true, os1).0;
             InTable(v2, i0) && v2.extras[i0].vaddr in v2.mem
    ensures Leads(s, steps, s') && s'.lock.None? && OwnSteps(steps, c)
    ensures var (v2, rc, i1) := AllocDesc(s.vq, RESPONSE_SIZE, true, os1); var req := s.callers[c].req;
            && (rc == EOK ==>
                  && ShapeOk(v2) && i1 < v2.num
                  && s'.vq == PutDescChain(SetContext(WriteBuffer(v2, v2.extras[i0].vaddr, req), i0, c), [i0, i1])
                  && s'.callers == s.callers[c := Notify(req, |s.h.published|)] && s'.contexts == s.contexts)
            && (rc != EOK ==>
                  && s'.vq == FreeDesc(v2, i0).0
                  && s'.callers == s.callers[c := Idle(Failed(rc))] && s'.contexts == s.contexts - {c})
  {
    hide Leads, Next, Enabled, WF, AllocDesc, FreeDesc, PutDescChain, WriteBuffer, SetContext;
    AllocShape(s.vq, RESPONSE_SIZE, true, os1);
    var s1 := AllocRuns(s, c, os1);
    var alloc, rest := AllocSteps(s.vq, c, os1), [];
    if s1.callers[c].Undo? {
      rest := [SUndo(c), SUndo(c), SUndo(c)];
      s' := UndoRuns(s1, c);
    } else {
      rest := [SWrite(c), STag(c), SLink(c)] + [SRing(c), SBump(c)];
      s' := PutRuns(s1, c);
    }
    steps := alloc + rest;
    LeadsJoin(s, alloc, s1, rest, s');
  }

  lemma AllocShape(v: Vq, len: nat, writable: bool, os: MapOutcome)
    requires WF(v)
    ensures var (v', rc, i) := AllocDesc(v, len, writable, os);
            ShapeOk(v') && v'.num == v.num && (rc == EOK ==> i < v.num)
  {
  }

  lemma RequestRuns(s: State, c: nat, req: Buffer, os0: MapOutcome, os1: MapOutcome) returns (steps: seq<Step>,
                    s': State)
    requires At(s, c) && s.callers[c].Idle? && s.lock.None? && Sendable(req) && !s.fault
    requires WF(s.vq) && OsOk(s.vq, os0, os1)
    ensures Leads(s, steps, s') && s'.lock.None? && OwnSteps(steps, c)
    ensures var (v, rc) := SendRequest(s.vq, req, c, os0, os1);
            && s'.vq == v
            && s'.callers == s.callers[c := if rc == EOK then Notify(req, |s.h.published|) else Idle(Failed(rc))]
            && s'.contexts == if rc == EOK then s.contexts[c := Context(0, 0, 0)] else s.contexts - {c}
  {
    hide Leads, Next, Enabled, WF, AllocDesc, FreeDesc, PutDescChain, SendRequest, OsOk, GpioSpec.Filled, Succeeds;
    OsEach(s.vq, os0, os1);
    AllocShape(s.vq, REQUEST_SIZE, false, os0);
    RequestOutcome(s.vq, req, c, os0, os1);
    var s0 := BeginRuns(s, c, req);
    var s1 := AllocRuns(s0, c, os0);
    var begin := [SBegin(c, req)] + AllocSteps(s0.vq, c, os0);
    LeadsJoin(s, [SBegin(c, req)], s0, AllocSteps(s0.vq, c, os0), s1);
    if s1.callers[c].Take? {
      var i0, rest := s1.callers[c].first.value, [];
      if AllocDesc(s1.vq, RESPONSE_SIZE, true, os1).1 != EOK {
        FirstStillMapped(s.vq, os0, os1);
      }
      rest, s' := SecondHalfRuns(s1, c, i0, os1);
      steps := begin + rest;
      LeadsJoin(s, begin, s1, rest, s');
    } else {
      steps, s' := begin, s1;
    }
  }

  /** The notification that ends a request. */
  lemma NotifyRuns(s: State, c: nat) returns (s': State)
    requires At(s, c) && s.callers[c].Notify?
    ensures Leads(s, [SNotify(c)], s')
    ensures s' == s.(callers := s.callers[c := Wait(s.callers[c].req, s.callers[c].p)], dev := s.dev.(awake := true))
  {
    LeadsOne(s, SNotify(c));
    s' := NotifyDevice(s, c);
  }

  /** From any reachable state where caller `c` is idle and the lock is free, and for every pair of outcomes of
      the two mappings, the protocol can run the whole request; it comes to what `SendRequest` says: on success
      the device has been notified and the caller waits for a new chain, otherwise its call has failed with that
      error. */
  lemma RequestRefines(s: State, c: nat, req: Buffer, os0: MapOutcome, os1: MapOutcome) returns (steps: seq<Step>,
                       s': State)
    requires Reachable(s) && At(s, c) && s.callers[c].Idle? && s.lock.None? && Sendable(req)
    requires OsOk(s.vq, os0, os1)
    ensures WF(s.vq)
    ensures Leads(s, steps, s') && OwnSteps(steps, c) && Reachable(s') && s'.lock.None?
    ensures var (v, rc) := SendRequest(s.vq, req, c, os0, os1);
            && s'.vq == v
            && s'.callers == s.callers[c := if rc == EOK then Wait(req, |s.h.published|) else Idle(Failed(rc))]
            && s'.contexts == (if rc == EOK then s.contexts[c := Context(0, 0, 0)] else s.contexts - {c})
            && (rc == EOK ==> s'.dev.awake)
  {
    hide Reachable, Leads, Next, WF, OsOk, AllocDesc, FreeDesc, PutDescChain, SendRequest;
    ReachableQueue(s);
    Safety.NeverFaults(s);
    steps, s' := RequestRuns(s, c, req, os0, os1);
    if s'.callers[c].Notify? {
      var s1 := s';
      s' := NotifyRuns(s1, c);
      LeadsJoin(s, steps, s1, [SNotify(c)], s');
      steps := steps + [SNotify(c)];
    }
    Liveness.RunReachable(s, steps, s');
  }
}
