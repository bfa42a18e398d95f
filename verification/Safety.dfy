/** What holds in every reachable state of the interleaved protocol. */
module Safety {
  import opened Words
  import opened VirtqSpec
  import opened Protocol
  import opened Invariant
  import opened Frames
  import opened Reach
  import opened Changes
  import HandlerSteps

  // ----- Ownership of descriptors -----

  /** Descriptor `i` is one of the two of chain `p`, published and not yet collected. */
  predicate InChain(s: State, p: nat, i: nat) {
    && Outstanding(s.h.stage, p) && p < |s.h.published|
    && (s.h.published[p].head == i || s.h.published[p].tail == i)
  }

  /** Read off the free list, the program counters and the two rings' queues; `History.owner` plays no part. */
  predicate HasOwner(s: State, i: nat, o: Owner) {
    match o
    case Free => i in s.vq.free
    case Building(c) => At(s, c) && i in Held(s.callers[c])
    case InFlight(p) => InChain(s, p, i)
    case Handling => i in HeldByHandler(s.ist)
  }

  lemma OwnerIs(s: State, i: nat, o: Owner)
    requires i < s.vq.num
    requires Inv(s)
    ensures |s.h.owner| == s.vq.num && (HasOwner(s, i, o) <==> s.h.owner[i] == o)
  {
    hide FreeOk, CallersOk, HandlerOk, FlightOk, StageOk, ServedOk, AvailOk, BumpOk, UsedOk, HolderOk;
    hide CallersMem, TicketsMem, HandlerMem, ContextsOk, HandOverOk, KickOk, CallerMem;
    InvShape(s);
    match o
    case Free => OwnerFree(s, i);
    case Building(c) => OwnerBuilding(s, i, c);
    case InFlight(p) => OwnerInFlight(s, i, p);
    case Handling => OwnerHandling(s, i);
  }

  lemma OwnerFree(s: State, i: nat)
    requires FreeOk(s.vq.free, s.h.owner, s.vq.desc, s.vq.extras) && i < |s.h.owner|
    ensures i in s.vq.free <==> s.h.owner[i] == Free
  {
  }

  lemma OwnerBuilding(s: State, i: nat, c: nat)
    requires CallersOk(s.callers, s.h.owner) && i < |s.h.owner|
    ensures (At(s, c) && i in Held(s.callers[c])) <==> s.h.owner[i] == Building(c)
  {
  }

  lemma OwnerInFlight(s: State, i: nat, p: nat)
    requires FlightOk(s.h.published, s.h.stage, s.h.collected, s.h.owner) && i < |s.h.owner|
    ensures InChain(s, p, i) <==> s.h.owner[i] == InFlight(p)
  {
  }

  lemma OwnerHandling(s: State, i: nat)
    requires HandlerOk(s.ist, s.h.owner) && i < |s.h.owner|
    ensures i in HeldByHandler(s.ist) <==> s.h.owner[i] == Handling
  {
  }

  /** Every descriptor has exactly one owner, and the free list holds none of them twice. */
  lemma OneOwner(s: State, i: nat)
    requires Reachable(s) && i < s.vq.num
    ensures NoDup(s.vq.free)
    ensures exists o :: HasOwner(s, i, o) && forall o' :: HasOwner(s, i, o') ==> o' == o
  {
    hide Inv, HasOwner, Reachable;
    ReachableInv(s);
    FreeNoDup(s);
    OwnerIs(s, i, Free);
    var o := s.h.owner[i];
    OwnerIs(s, i, o);
    forall o' | HasOwner(s, i, o') ensures o' == o {
      OwnerIs(s, i, o');
    }
  }

  lemma FreeNoDup(s: State)
    requires Inv(s)
    ensures NoDup(s.vq.free)
  {
    hide CallersOk, HandlerOk, FlightOk, StageOk, ServedOk, AvailOk, BumpOk, UsedOk, HolderOk, CallersMem;
    hide TicketsMem, HandlerMem, ContextsOk, HandOverOk, KickOk, CallerMem;
  }

  // ----- The four counts -----

  /** Descriptors in the hands of the first `n` callers. */
  function TotalHeld(callers: seq<Caller>, n: nat): nat
    requires n <= |callers|
  {
    if n == 0 then 0 else TotalHeld(callers, n - 1) + |Held(callers[n - 1])|
  }

  /** The descriptors owned by the first `n` callers. */
  function BuiltBelow(owner: seq<Owner>, n: nat): set<nat> {
    set i: nat | i < |owner| && owner[i].Building? && owner[i].c < n
  }

  lemma {:induction false} TotalHeldSize(callers: seq<Caller>, owner: seq<Owner>, n: nat)
    requires CallersOk(callers, owner) && n <= |callers|
    ensures TotalHeld(callers, n) == |BuiltBelow(owner, n)|
  {
    if n == 0 {
      assert BuiltBelow(owner, 0) == {};
    } else {
      TotalHeldSize(callers, owner, n - 1);
      BuiltByLast(callers, owner, n);
    }
  }

  lemma BuiltByLast(callers: seq<Caller>, owner: seq<Owner>, n: nat)
    requires CallersOk(callers, owner) && 0 < n <= |callers|
    ensures BuiltBelow(owner, n) == BuiltBelow(owner, n - 1) + Held(callers[n - 1])
    ensures BuiltBelow(owner, n - 1) !! Held(callers[n - 1])
  {
    hide Held;
  }

  lemma {:induction false} CountBuilding(owner: seq<Owner>, n: nat)
    requires forall i: nat :: i < |owner| && owner[i].Building? ==> owner[i].c < n
    ensures Count(owner, KBuilding) == |BuiltBelow(owner, n)|
  {
    if owner == [] {
      assert BuiltBelow(owner, n) == {};
    } else {
      var k := |owner| - 1;
      CountBuilding(owner[..k], n);
      var rest := BuiltBelow(owner[..k], n);
      assert BuiltBelow(owner, n) == if owner[k].Building? then rest + {k} else rest;
    }
  }

  /** Conservation: the free list, the callers, the chains in flight (two descriptors each) and the handler
      share the table without loss. */
  lemma FourCounts(s: State)
    requires Reachable(s)
    ensures |s.h.published| >= s.h.collected
    ensures |s.vq.free| + TotalHeld(s.callers,
            |s.callers|) + 2 * (|s.h.published| - s.h.collected) + |HeldByHandler(s.ist)| == s.vq.num
  {
    hide Reachable, Inv;
    ReachableInv(s);
    InvShape(s);
    CountsOf(s);
    CountTotal(s.h.owner);
  }

  lemma CountsOf(s: State)
    requires Inv(s)
    ensures Count(s.h.owner, KFree) == |s.vq.free|
    ensures Count(s.h.owner, KBuilding) == TotalHeld(s.callers, |s.callers|)
    ensures s.h.collected <= |s.h.published| && Count(s.h.owner, KInFlight) == 2 * (|s.h.published| - s.h.collected)
    ensures Count(s.h.owner, KHandling) == |HeldByHandler(s.ist)|
  {
    hide CallersOk, StageOk, ServedOk, AvailOk, BumpOk, UsedOk, HolderOk, CallersMem, TicketsMem, HandlerMem;
    hide ContextsOk, HandOverOk, KickOk, CallerMem;
    TotalHeldSize(s.callers, s.h.owner, |s.callers|);
    BuildersExist(s);
    CountBuilding(s.h.owner, |s.callers|);
  }

  lemma BuildersExist(s: State)
    requires CallersOk(s.callers, s.h.owner)
    ensures forall i: nat :: i < |s.h.owner| && s.h.owner[i].Building? ==> s.h.owner[i].c < |s.callers|
  {
  }

  /** No fifo_put of the driver ever finds the free list full. */
  predicate Returns(s: State, step: Step, i: nat) {
    match step
    case SMapFail(c, _) => At(s, c) && s.callers[c].MapIn? && i == s.callers[c].i
    case SUndo(c) => At(s, c) && s.callers[c].Undo? && s.callers[c].phase.Give? && i == s.callers[c].i
    case IFree => s.ist.Freeing? && s.ist.phase.Give? && i == s.ist.i
    case _ => false
  }

  lemma FreeListNeverFull(s: State, step: Step, i: nat)
    requires Reachable(s) && Enabled(s, step) && Returns(s, step, i)
    ensures |s.vq.free| < s.vq.num
    ensures i < s.vq.num && i !in s.vq.free
    ensures ReturnFree(s.vq, i).free == s.vq.free + [i]
  {
    hide Reachable, Inv;
    ReachableInv(s);
    var who := match step case SMapFail(c, _) => Building(c) case SUndo(c) => Building(c) case _ => Handling;
    InvShape(s);
    ActorHolds(s, who, i);
    OwnerIs(s, i, who);
    NotFree(s, i);
  }

  lemma ActorHolds(s: State, who: Owner, i: nat)
    requires who.Building? || who.Handling?
    requires HasOwner(s, i, who)
    requires Inv(s)
    ensures i < s.vq.num
  {
    hide FreeOk, FlightOk, StageOk, ServedOk, AvailOk, BumpOk, UsedOk, HolderOk, CallersMem, TicketsMem;
    hide HandlerMem, ContextsOk, HandOverOk, KickOk, CallerMem;
  }

  lemma NotFree(s: State, i: nat)
    requires i < |s.h.owner| && !s.h.owner[i].Free?
    requires Inv(s)
    ensures |s.vq.free| < s.vq.num && i !in s.vq.free
  {
    hide FreeOk, CallersOk, HandlerOk, FlightOk, StageOk, ServedOk, AvailOk, BumpOk, UsedOk, HolderOk;
    hide CallersMem, TicketsMem, HandlerMem, ContextsOk, HandOverOk, KickOk, CallerMem;
    InvShape(s);
    OwnerFree(s, i);
    FreeHasRoom(s.vq.free, s.h.owner, s.vq.desc, s.vq.extras, i);
  }

  // ----- No access goes astray -----

  /** No actor ever touches unmapped memory, a descriptor outside the table, or a context off the stack. */
  lemma NeverFaults(s: State)
    requires Reachable(s)
    ensures !s.fault
  {
    hide FreeOk, CallersOk, HandlerOk, FlightOk, StageOk, ServedOk, AvailOk, BumpOk, UsedOk, HolderOk;
    hide CallersMem, TicketsMem, HandlerMem, ContextsOk, HandOverOk, KickOk, CallerMem, Reachable;
    ReachableInv(s);
  }

  lemma NoFault(s: State)
    requires Inv(s)
    ensures !s.fault
  {
    hide FreeOk, CallersOk, HandlerOk, FlightOk, StageOk, ServedOk, AvailOk, BumpOk, UsedOk, HolderOk;
    hide CallersMem, TicketsMem, HandlerMem, ContextsOk, HandOverOk, KickOk, CallerMem;
  }

  /** The owner a step acts as when it writes the descriptor table. */
  function Actor(step: Step): Owner {
    match step
    case SFill(c) => Building(c)
    case STag(c) => Building(c)
    case SLink(c) => Building(c)
    case SUndo(c) => Building(c)
    case _ => Handling
  }

  predicate Writes(s: State, step: Step, i: nat)
    requires Enabled(s, step) && i < |s.vq.desc| && i < |s.vq.extras|
  {
    var t := Next(s, step).vq;
    i >= |t.desc| || i >= |t.extras| || t.desc[i] != s.vq.desc[i] || t.extras[i] != s.vq.extras[i]
  }

  /** Whoever writes a table entry owns that descriptor before and after: a descriptor being freed is cleared
      before anyone else can get it, and one being allocated is filled only after it left the free list. */
  lemma NoClobber(s: State, step: Step, i: nat)
    requires Reachable(s) && Enabled(s, step)
    requires i < s.vq.num && |s.vq.desc| == |s.vq.extras| == s.vq.num && Writes(s, step, i)
    ensures HasOwner(s, i, Actor(step)) && HasOwner(Next(s, step), i, Actor(step))
    ensures i !in s.vq.free && i !in Next(s, step).vq.free
  {
    hide Inv, Reachable, Next;
    ReachableInv(s);
    StepInv(s, step);
    WriterHolds(s, step, i);
    TableChanges(s, step);
    var s' := Next(s, step);
    OwnerIs(s, i, Actor(step));
    OwnerIs(s', i, Actor(step));
    OwnerIs(s, i, Free);
    OwnerIs(s', i, Free);
  }

  lemma WriterHolds(s: State, step: Step, i: nat)
    requires Enabled(s, step) && i < |s.vq.desc| && i < |s.vq.extras| && Writes(s, step, i)
    ensures WritesTable(s, step)
    ensures HasOwner(s, i, Actor(step))
  {
    hide Next;
    TableChanges(s, step);
    if step.SLink? {
      LinkWriter(s, step.c, i);
    } else {
      EntryWriter(s, step, i);
    }
  }

  lemma LinkWriter(s: State, c: nat, i: nat)
    requires Enabled(s, SLink(c)) && i < |s.vq.desc| && i < |s.vq.extras| && Writes(s, SLink(c), i)
    ensures i in Held(s.callers[c])
  {
    hide Next;
    CallerNext(s, c);
    var pc := s.callers[c];
    if pc.i0 < |s.vq.desc| && pc.i1 < |s.vq.desc| && i != pc.i0 && i != pc.i1 {
      LinkChainFrame(s.vq.desc, [pc.i0, pc.i1], i);
    }
  }

  lemma EntryWriter(s: State, step: Step, i: nat)
    requires Enabled(s, step) && WritesTable(s, step) && !step.SLink?
    requires i < |s.vq.desc| && i < |s.vq.extras| && Writes(s, step, i)
    ensures HasOwner(s, i, Actor(step))
  {
    hide Next, Writes, Held;
    match step
    case SFill(c) => FillWriter(s, c, i);
    case STag(c) => TagWriter(s, c, i);
    case SUndo(c) => UndoWriter(s, c, i);
    case IFree => FreeWriter(s, i);
  }

  lemma FillWriter(s: State, c: nat, i: nat)
    requires Enabled(s, SFill(c)) && i < |s.vq.desc| && i < |s.vq.extras| && Writes(s, SFill(c), i)
    ensures i in Held(s.callers[c])
  {
    hide Next;
    CallerNext(s, c);
  }

  lemma TagWriter(s: State, c: nat, i: nat)
    requires Enabled(s, STag(c)) && i < |s.vq.desc| && i < |s.vq.extras| && Writes(s, STag(c), i)
    ensures i in Held(s.callers[c])
  {
    hide Next;
    CallerNext(s, c);
  }

  lemma UndoWriter(s: State, c: nat, i: nat)
    requires Enabled(s, SUndo(c)) && i < |s.vq.desc| && i < |s.vq.extras| && Writes(s, SUndo(c), i)
    ensures i in Held(s.callers[c])
  {
    hide Next, FreeStep;
    CallerNext(s, c);
    if InTable(s.vq, s.callers[c].i) && s.callers[c].i != i {
      FreeStepEntry(s.vq, s.h, s.callers[c].i, s.callers[c].phase, i);
    }
  }

  lemma FreeWriter(s: State, i: nat)
    requires Enabled(s, IFree) && i < |s.vq.desc| && i < |s.vq.extras| && Writes(s, IFree, i)
    ensures i in HeldByHandler(s.ist)
  {
    hide Next, FreeStep;
    ThreadNext(s);
    if InTable(s.vq, s.ist.i) && s.ist.i != i {
      FreeStepEntry(s.vq, s.h, s.ist.i, s.ist.phase, i);
    }
  }

  /** Every mapped buffer is recorded at a descriptor that is not free, or with the caller that just mapped it. */
  lemma NoLeak(s: State, b: nat)
    requires Reachable(s) && b in s.vq.mem
    ensures (exists i: nat :: InTable(s.vq, i) && i !in s.vq.free && s.vq.extras[i].vaddr == b)
         || (exists c: nat :: At(s, c) && s.callers[c].FillIn? && s.callers[c].b == b)
  {
    hide Reachable, Inv;
    ReachableInv(s);
    BufferRecorded(s, b);
  }

  lemma BufferRecorded(s: State, b: nat)
    requires b in s.vq.mem
    requires Inv(s)
    ensures (exists i: nat :: InTable(s.vq, i) && i !in s.vq.free && s.vq.extras[i].vaddr == b)
         || (exists c: nat :: At(s, c) && s.callers[c].FillIn? && s.callers[c].b == b)
  {
    hide CallersOk, HandlerOk, FlightOk, StageOk, ServedOk, AvailOk, BumpOk, UsedOk, CallersMem, TicketsMem;
    hide HandlerMem, ContextsOk, HandOverOk, KickOk, CallerMem;
    match s.h.holder[b]
    case AtDesc(i) => assert InTable(s.vq, i) && s.vq.extras[i].vaddr == b && i !in s.vq.free;
    case AtCaller(c) => assert s.callers[c].FillIn? && s.callers[c].b == b;
  }

  /** At rest nothing is lost: with every call returned and every chain handled, all descriptors are free and no buffer
      is mapped. */
  lemma RestsClean(s: State)
    requires Reachable(s)
    requires forall c: nat :: c < |s.callers| ==> s.callers[c].Idle?
    requires HeldByHandler(s.ist) == {}
    ensures |s.vq.free| == s.vq.num && (forall i: nat :: i < s.vq.num ==> i in s.vq.free)
    ensures s.vq.mem == map[]
    ensures s.h.delivered == s.h.completed && |s.h.completed| == |s.h.published|
  {
    hide Reachable, Inv;
    ReachableInv(s);
    InvShape(s);
    RestsCleanInv(s);
    forall b | b in s.vq.mem ensures false {
      BufferRecorded(s, b);
    }
  }

  lemma RestsCleanInv(s: State)
    requires forall c: nat :: c < |s.callers| ==> s.callers[c].Idle?
    requires HeldByHandler(s.ist) == {}
    requires Inv(s)
    ensures |s.vq.free| == s.vq.num && (forall i: nat :: i < s.vq.num ==> i in s.vq.free)
    ensures s.h.delivered == s.h.completed && |s.h.completed| == |s.h.published|
  {
    hide FreeOk, CallersOk, HandlerOk, FlightOk, StageOk, ServedOk, AvailOk, BumpOk, UsedOk, HolderOk;
    hide CallersMem, TicketsMem, HandlerMem, ContextsOk, HandOverOk, KickOk, CallerMem;
    InvShape(s);
    RestSettled(s);
    RestOwners(s);
  }

  lemma RestSettled(s: State)
    requires forall c: nat :: c < |s.callers| ==> s.callers[c].Idle?
    requires HeldByHandler(s.ist) == {}
    requires StageOk(s.h.stage, s.dev, s.h.completed, s.h.collected)
    requires FlightOk(s.h.published, s.h.stage, s.h.collected, s.h.owner)
    requires ContextsOk(s.callers, s.contexts, s.h.published, s.h.stage, s.h.served, s.ist)
    requires HandOverOk(s.ist, s.contexts, s.h.stage, s.h.completed, s.h.collected, s.h.served, s.h.delivered)
    ensures forall p: nat :: p < |s.h.stage| ==> s.h.stage[p].Collected?
    ensures s.h.delivered == s.h.completed && |s.h.completed| == |s.h.published|
  {
    hide CallerCtx;
    assert Handled(s.ist) == None;
    forall p: nat | p < |s.h.stage| ensures s.h.stage[p].Collected? {
      assert Settled(s.h.stage, s.ist, p);
    }
    assert forall p: nat :: p < |s.h.stage| ==> !s.h.stage[p].Queued? && !s.h.stage[p].Working? && !s.h.stage[p].Used?;
    assert s.dev.work.Keys == {};
    assert |s.dev.work| == 0;
    if s.h.stage != [] { assert !s.h.stage[|s.h.stage| - 1].Queued?; }
    if s.h.completed != [] { assert !s.h.stage[s.h.completed[|s.h.completed| - 1]].Used?; }
  }

  lemma RestOwners(s: State)
    requires forall c: nat :: c < |s.callers| ==> s.callers[c].Idle?
    requires HeldByHandler(s.ist) == {}
    requires forall p: nat :: p < |s.h.stage| ==> s.h.stage[p].Collected?
    requires FreeOk(s.vq.free, s.h.owner, s.vq.desc, s.vq.extras)
    requires CallersOk(s.callers, s.h.owner) && HandlerOk(s.ist, s.h.owner)
    requires FlightOk(s.h.published, s.h.stage, s.h.collected, s.h.owner)
    ensures |s.vq.free| == |s.h.owner| && forall i: nat :: i < |s.h.owner| ==> i in s.vq.free
  {
    forall i: nat | i < |s.h.owner| ensures s.h.owner[i] == Free {
      match s.h.owner[i]
      case InFlight(p) => assert false;
      case Building(c) => assert false;
      case Handling => assert false;
      case Free =>
    }
    AllFree(s.h.owner);
    forall i: nat | i < |s.h.owner| ensures i in s.vq.free {
      assert s.h.owner[i].Free?;
    }
  }

  // ----- The rings refine unbounded queues -----

  /** The 16-bit available ring is a window on the unbounded queue of published chains: the slot the device
      will read at any count it has not reached yet holds the head published at that count. */
  lemma AvailableRingRefines(s: State, k: nat)
    requires Reachable(s) && s.dev.taken <= k < |s.h.published|
    ensures s.vq.availIdx == |s.h.published| % WORD
    ensures s.vq.num > 0 && (k % WORD) % s.vq.num < |s.vq.availRing|
    ensures s.vq.availRing[(k % WORD) % s.vq.num] == s.h.published[k].head
    ensures 2 * (|s.h.published| - s.dev.taken) <= s.vq.num
  {
    hide Reachable, Inv;
    ReachableInv(s);
    AvailableSlot(s, k);
  }

  lemma AvailableSlot(s: State, k: nat)
    requires s.dev.taken <= k < |s.h.published|
    requires Inv(s)
    ensures s.vq.availIdx == |s.h.published| % WORD
    ensures 0 < s.vq.num == |s.vq.availRing| && IsPow2(s.vq.num) && s.vq.num <= WORD
    ensures s.vq.availRing[(k % WORD) % s.vq.num] == s.h.published[k].head
    ensures 2 * (|s.h.published| - s.dev.taken) <= s.vq.num
  {
    hide FreeOk, CallersOk, HandlerOk, ServedOk, BumpOk, UsedOk, HolderOk, CallersMem, TicketsMem, HandlerMem;
    hide ContextsOk, HandOverOk, KickOk, CallerMem;
    SlotOfWrapped(k, s.vq.num);
    FlightBound(s.h.published, s.h.stage, s.h.collected, s.h.owner);
  }

  /** Putting a chain never overwrites a head the device has yet to take. */
  lemma PutOverwritesNothing(s: State, c: nat, k: nat)
    requires Reachable(s) && Enabled(s, SRing(c)) && s.dev.taken <= k < |s.h.published|
    ensures s.vq.num > 0 && s.vq.availIdx % s.vq.num != (k % WORD) % s.vq.num
    ensures 2 * (|s.h.published| + 1 - s.h.collected) <= s.vq.num
  {
    hide Reachable, Inv;
    ReachableInv(s);
    AvailableSlot(s, k);
    SlotOfWrapped(|s.h.published|, s.vq.num);
    SlotOfWrapped(k, s.vq.num);
    PutRoom(s, c);
    SlotsDiffer(k, |s.h.published|, s.vq.num);
  }

  lemma PutRoom(s: State, c: nat)
    requires At(s, c) && s.callers[c].Ring?
    requires Inv(s)
    ensures 2 * (|s.h.published| - s.h.collected) + 2 <= s.vq.num && s.h.collected <= s.dev.taken
  {
    hide FreeOk, HandlerOk, ServedOk, AvailOk, BumpOk, UsedOk, HolderOk, CallersMem, TicketsMem, HandlerMem;
    hide ContextsOk, HandOverOk, KickOk, CallerMem;
    var i0, i1 := s.callers[c].i0, s.callers[c].i1;
    assert i0 in Held(s.callers[c]) && i1 in Held(s.callers[c]);
    CountTwo(s.h.owner, i0, i1, KBuilding);
    FlightBound(s.h.published, s.h.stage, s.h.collected, s.h.owner);
  }

  /** The device takes the chains in the order they were published, none skipped or repeated. */
  lemma TakenInOrder(s: State)
    requires Reachable(s) && Enabled(s, DTake)
    ensures s.dev.taken < |s.h.published| && s.dev.taken !in s.dev.work
    ensures Next(s, DTake).dev.taken == s.dev.taken + 1
    ensures Next(s, DTake).dev.work == s.dev.work[s.dev.taken := Job(s.h.published[s.dev.taken].head, false)]
  {
    hide Reachable, Inv;
    ReachableInv(s);
    InvShape(s);
    TakenCount(s);
    AvailableSlot(s, s.dev.taken);
  }

  lemma TakenCount(s: State)
    requires Enabled(s, DTake)
    requires Inv(s)
    ensures s.dev.taken < |s.h.published| && s.dev.taken !in s.dev.work
  {
    hide FreeOk, CallersOk, HandlerOk, ServedOk, BumpOk, UsedOk, HolderOk, FlightOk, CallersMem, TicketsMem;
    hide HandlerMem, ContextsOk, HandOverOk, KickOk, CallerMem;
  }

  /** The emptiness test on the wrapped indices is exact on every run, however long. */
  lemma EmptyIsExact(s: State)
    requires Reachable(s)
    ensures s.vq.usedIdx == s.vq.lastSeen <==> |s.h.completed| == s.h.collected
    ensures s.h.collected <= |s.h.completed|
    ensures Distance16(s.vq.lastSeen, s.vq.usedIdx) == |s.h.completed| - s.h.collected
    ensures 2 * (|s.h.completed| - s.h.collected) <= s.vq.num
  {
    hide Reachable, Inv;
    ReachableInv(s);
    EmptyIsExactInv(s);
  }

  lemma EmptyIsExactInv(s: State)
    requires Inv(s)
    ensures s.vq.usedIdx == s.vq.lastSeen <==> |s.h.completed| == s.h.collected
    ensures s.h.collected <= |s.h.completed|
    ensures Distance16(s.vq.lastSeen, s.vq.usedIdx) == |s.h.completed| - s.h.collected
    ensures 2 * (|s.h.completed| - s.h.collected) <= s.vq.num
  {
    hide FreeOk, CallersOk, HandlerOk, FlightOk, StageOk, ServedOk, AvailOk, BumpOk, UsedOk, HolderOk;
    hide CallersMem, TicketsMem, HandlerMem, ContextsOk, HandOverOk, KickOk, CallerMem;
    InvShape(s);
    HandlerSteps.CollectedBound(s);
    HandlerSteps.EmptinessExact(s);
  }

  /** Collecting yields the completions in the order the device published them: the next one is the oldest
      uncollected, it reads back as exactly the two descriptors of that chain, and it never overflows. */
  lemma CollectedInOrder(s: State)
    requires Reachable(s) && s.vq.usedIdx != s.vq.lastSeen
    ensures s.h.collected < |s.h.completed| && s.h.completed[s.h.collected] < |s.h.published|
    ensures ShapeOk(s.vq) && LinksOk(s.vq.desc) && UsedIdOk(s.vq)
    ensures var t := s.h.published[s.h.completed[s.h.collected]];
            GetDescChain(s.vq, CHAIN_ROOM) == (s.vq.(lastSeen := Inc16(s.vq.lastSeen)), EOK, [t.head, t.tail])
  {
    hide Reachable, Inv;
    ReachableInv(s);
    EmptyIsExactInv(s);
    InvShape(s);
    CollectedInOrderInv(s);
  }

  lemma CollectedInOrderInv(s: State)
    requires s.h.collected < |s.h.completed| && s.vq.usedIdx != s.vq.lastSeen
    requires Inv(s)
    ensures s.h.completed[s.h.collected] < |s.h.published|
    ensures ShapeOk(s.vq) && LinksOk(s.vq.desc) && UsedIdOk(s.vq)
    ensures var t := s.h.published[s.h.completed[s.h.collected]];
            GetDescChain(s.vq, CHAIN_ROOM) == (s.vq.(lastSeen := Inc16(s.vq.lastSeen)), EOK, [t.head, t.tail])
  {
    hide FreeOk, CallersOk, HandlerOk, FlightOk, StageOk, ServedOk, AvailOk, BumpOk, UsedOk, HolderOk;
    hide CallersMem, TicketsMem, HandlerMem, ContextsOk, HandOverOk, KickOk, CallerMem, TicketMem;
    InvShape(s);
    HandlerSteps.NextCompletion(s);
  }

  // ----- Delivery -----

  /** Chains are handed over exactly once each, in the order the device completed them: the handler works on the
      oldest completion not yet handed over, holds the two descriptors of that very chain, and writes to the
      context of the caller that published it. */
  lemma DeliveredOnceInOrder(s: State)
    requires Reachable(s)
    ensures |s.h.delivered| <= |s.h.completed| && s.h.delivered == s.h.completed[..|s.h.delivered|]
    ensures NoDup(s.h.completed) && NoDup(s.h.delivered)
    ensures |s.h.delivered| == s.h.collected - (if Handled(s.ist).Some? then 1 else 0)
    ensures forall j: nat :: j < |s.h.completed| ==> s.h.completed[j] < |s.h.published|
    ensures Handled(s.ist).Some? ==>
      && |s.h.delivered| < |s.h.completed| && Handled(s.ist).value == s.h.completed[|s.h.delivered|]
      && var t := s.h.published[s.h.completed[|s.h.delivered|]];
         && HeldByHandler(s.ist) == {t.head, t.tail} && t.head != t.tail
         && (s.ist.CopyValue? || s.ist.Post? ==> s.ist.c == t.caller)
  {
    hide Reachable, Inv;
    ReachableInv(s);
    DeliveredInv(s);
    if Handled(s.ist).Some? {
      HandledIsNext(s);
    }
  }

  lemma HandledIsNext(s: State)
    requires Handled(s.ist).Some?
    requires Inv(s)
    ensures var p := Handled(s.ist).value;
            && p < |s.h.published| && |s.h.delivered| < |s.h.completed| && p == s.h.completed[|s.h.delivered|]
                 && p in s.h.served
            && var t := s.h.published[p];
               && HeldByHandler(s.ist) == {t.head, t.tail} && t.head != t.tail
               && (s.ist.CopyValue? || s.ist.Post? ==> s.ist.c == t.caller)
               && (s.ist.Post? ==> s.ist.i0 == t.head && s.ist.i1 == t.tail && s.ist.c in s.contexts
                                   && s.contexts[s.ist.c].status == s.h.served[p].status
                                   && s.contexts[s.ist.c].value == s.h.served[p].value)
  {
    hide FreeOk, CallersOk, FlightOk, StageOk, ServedOk, AvailOk, BumpOk, UsedOk, HolderOk, CallersMem, TicketsMem;
    hide ContextsOk, KickOk, CallerMem, TicketMem;
  }

  /** The post itself: it completes the hand-over of the oldest completion, to the caller that published that
      chain and still waits for it, with the device's status and value in its context and one post on its
      semaphore; then the handler frees the two descriptors of that chain. */
  lemma PostReachesOwner(s: State)
    requires Reachable(s) && Enabled(s, IPost)
    ensures var n := |s.h.delivered|;
            && n < |s.h.completed| && s.h.completed[n] < |s.h.published| && s.h.completed[n] in s.h.served
            && var p := s.h.completed[n]; var t := s.h.published[p]; var s' := Next(s, IPost);
               && s'.h.delivered == s.h.delivered + [p]
               && At(s, t.caller) && Pending(s.callers[t.caller], p)
               && s'.contexts == s.contexts[t.caller := Context(s.h.served[p].status, s.h.served[p].value, 1)]
               && s'.ist == Freeing(t.head, Unmap, Some(t.tail))
  {
    hide Reachable, Inv, TicketMem, Next;
    ReachableInv(s);
    HandledIsNext(s);
    ContextSafetyCtx(s, s.ist.p);
    ThreadNext(s);
  }

  lemma DeliveredInv(s: State)
    requires Inv(s)
    ensures |s.h.delivered| <= |s.h.completed| && s.h.delivered == s.h.completed[..|s.h.delivered|]
    ensures NoDup(s.h.completed) && NoDup(s.h.delivered)
    ensures |s.h.delivered| == s.h.collected - (if Handled(s.ist).Some? then 1 else 0)
    ensures forall j: nat :: j < |s.h.completed| ==> s.h.completed[j] < |s.h.published|
  {
    hide FreeOk, CallersOk, HandlerOk, ServedOk, AvailOk, BumpOk, UsedOk, HolderOk, CallersMem, TicketsMem;
    hide HandlerMem, ContextsOk, KickOk, CallerMem;
    forall i, j | 0 <= i < j < |s.h.completed| ensures s.h.completed[i] != s.h.completed[j] {
      assert s.h.stage[s.h.completed[i]] == if i < s.h.collected then Collected(i) else Used(i);
      assert s.h.stage[s.h.completed[j]] == if j < s.h.collected then Collected(j) else Used(j);
    }
  }

  /** A returned call got the answer the device gave to that call's own request: the chain it returned with is
      its own, was delivered, and the result is the device's status and value; EOK
      exactly for the status byte 0. */
  lemma RightCaller(s: State, c: nat)
    requires Reachable(s) && At(s, c) && s.callers[c].Idle? && s.callers[c].last.Returned?
    ensures var r := s.callers[c].last;
            && r.p < |s.h.published| && s.h.published[r.p].caller == c && s.h.published[r.p].req == r.req
            && r.p in s.h.served && s.h.served[r.p].req == r.req
            && r.value == s.h.served[r.p].value
            && (r.rc == EOK <==> s.h.served[r.p].status == 0)
            && (r.rc == EIO <==> s.h.served[r.p].status != 0)
            && r.p in s.h.delivered
  {
    hide Reachable, Inv;
    ReachableInv(s);
    RightCallerInv(s, c);
    SettledDelivered(s, s.callers[c].last.p);
  }

  lemma RightCallerInv(s: State, c: nat)
    requires At(s, c) && s.callers[c].Idle? && s.callers[c].last.Returned?
    requires Inv(s)
    ensures var r := s.callers[c].last;
            && r.p < |s.h.published| && s.h.published[r.p].caller == c && s.h.published[r.p].req == r.req
            && r.p in s.h.served && s.h.served[r.p].req == r.req
            && r.value == s.h.served[r.p].value
            && r.rc == (if s.h.served[r.p].status == 0 then EOK else EIO)
            && Settled(s.h.stage, s.ist, r.p)
  {
    hide FreeOk, CallersOk, HandlerOk, FlightOk, StageOk, AvailOk, BumpOk, UsedOk, HolderOk, CallersMem;
    hide TicketsMem, HandlerMem, HandOverOk, KickOk, CallerMem;
    assert CallerCtx(c, s.callers[c], s.contexts, s.h.published, s.h.stage, s.h.served, s.ist);
  }

  lemma SettledDelivered(s: State, p: nat)
    requires Settled(s.h.stage, s.ist, p)
    requires Inv(s)
    ensures p in s.h.delivered
  {
    hide FreeOk, CallersOk, HandlerOk, FlightOk, ServedOk, AvailOk, BumpOk, UsedOk, HolderOk, CallersMem;
    hide TicketsMem, HandlerMem, ContextsOk, KickOk, CallerMem;
    var j := s.h.stage[p].j;
    assert s.h.completed[j] == p;
    if Handled(s.ist).Some? { assert j != s.h.collected - 1; }
    assert s.h.delivered[j] == p;
  }

  /** The queues only grow at the end and an answer never changes. */
  ghost predicate Extends(h: History, h': History) {
    && h.published <= h'.published
    && h.completed <= h'.completed
    && h.delivered <= h'.delivered
    && (forall p :: p in h.served ==> p in h'.served && h'.served[p] == h.served[p])
  }

  /** Whatever was recorded stays recorded. */
  lemma HistoryGrows(s: State, step: Step)
    requires Reachable(s) && Enabled(s, step)
    ensures Extends(s.h, Next(s, step).h)
  {
    hide Reachable, Inv, Enabled, Next;
    ReachableInv(s);
    AnsweredOnce(s, step);
    if ByCaller(step) {
      CallerChanges(s, step);
    } else if ByDevice(step) {
      DeviceChanges(s, step);
      StepInv(s, step);
      NoFault(Next(s, step));
    } else {
      ThreadChanges(s, step);
    }
  }

  lemma AnsweredOnce(s: State, step: Step)
    requires Enabled(s, step)
    requires Inv(s)
    ensures step.DRespond? ==> step.p !in s.h.served
  {
    hide FreeOk, CallersOk, HandlerOk, FlightOk, StageOk, AvailOk, BumpOk, UsedOk, HolderOk;
    hide CallersMem, TicketsMem, HandlerMem, ContextsOk, HandOverOk, KickOk, CallerMem, Next;
  }

  // ----- Contexts -----

  /** The context recorded for chain `p` is on a live stack, and its caller waits for `p`, not yet posted. */
  predicate ContextLive(s: State, p: nat)
    requires p < |s.h.published|
  {
    var t := s.h.published[p];
    && InTable(s.vq, t.head) && s.vq.extras[t.head].context == Some(t.caller)
    && At(s, t.caller) && Pending(s.callers[t.caller], p)
    && t.caller in s.contexts && s.contexts[t.caller].sem == 0
  }

  /** Every chain that is in flight or being handed over carries the context of a caller that still waits for
      exactly this chain, on a live stack, with its semaphore not posted. */
  lemma ContextSafety(s: State, p: nat)
    requires Reachable(s) && p < |s.h.published|
    requires (p < |s.h.stage| && Outstanding(s.h.stage, p)) || Handled(s.ist) == Some(p)
    ensures ContextLive(s, p)
  {
    hide Reachable, Inv;
    ReachableInv(s);
    ContextSafetyMem(s, p);
    ContextSafetyCtx(s, p);
  }

  lemma ContextSafetyMem(s: State, p: nat)
    requires p < |s.h.published|
    requires (p < |s.h.stage| && Outstanding(s.h.stage, p)) || Handled(s.ist) == Some(p)
    requires Inv(s)
    ensures var t := s.h.published[p]; InTable(s.vq, t.head) && s.vq.extras[t.head].context == Some(t.caller)
  {
    hide FreeOk, CallersOk, HandlerOk, FlightOk, StageOk, ServedOk, AvailOk, BumpOk, UsedOk, HolderOk;
    hide CallersMem, ContextsOk, HandOverOk, KickOk, CallerMem, Carries;
    assert TicketMem(MemoryOf(s), s.h.published[p], p, s.h.served);
  }

  lemma ContextSafetyCtx(s: State, p: nat)
    requires p < |s.h.published|
    requires (p < |s.h.stage| && Outstanding(s.h.stage, p)) || Handled(s.ist) == Some(p)
    requires Inv(s)
    ensures var t := s.h.published[p];
            && At(s, t.caller) && Pending(s.callers[t.caller], p)
            && t.caller in s.contexts && s.contexts[t.caller].sem == 0
  {
    hide FreeOk, CallersOk, HandlerOk, FlightOk, StageOk, ServedOk, AvailOk, BumpOk, UsedOk, HolderOk;
    hide CallersMem, TicketsMem, HandlerMem, HandOverOk, KickOk, CallerMem;
    var c := s.h.published[p].caller;
    assert !Settled(s.h.stage, s.ist, p);
    assert CallerCtx(c, s.callers[c], s.contexts, s.h.published, s.h.stage, s.h.served, s.ist);
  }

  /** A posted context is never touched again: only its own caller changes it, by returning. */
  lemma PostedIsFinal(s: State, step: Step, c: nat)
    requires Reachable(s) && Enabled(s, step)
    requires c in s.contexts && s.contexts[c].sem > 0 && step != SWake(c)
    ensures c in Next(s, step).contexts && Next(s, step).contexts[c] == s.contexts[c]
  {
    hide Reachable, Inv;
    ReachableInv(s);
    PostedWaits(s, c);
    HandlerElsewhere(s, c);
    StatusGoesTo(s);
    ContextKept(s, step, c);
  }

  lemma ContextKept(s: State, step: Step, c: nat)
    requires Enabled(s, step) && c in s.contexts && step != SWake(c)
    requires At(s, c) && (s.callers[c].Notify? || s.callers[c].Wait?) && Touched(s) != Some(c)
    ensures c in Next(s, step).contexts && Next(s, step).contexts[c] == s.contexts[c]
  {
    hide Next;
    if ByDevice(step) {
      DeviceChanges(s, step);
    } else if ByThread(step) {
      ThreadChanges(s, step);
    } else if step.c == c {
      NotifyDoes(s, c);
      NotifyIs(s, c);
    } else {
      CallerChanges(s, step);
      assert c in s.contexts - {step.c} && (s.contexts - {step.c})[c] == s.contexts[c];
    }
  }

  lemma NotifyIs(s: State, c: nat)
    requires Enabled(s, SNotify(c))
    ensures Next(s, SNotify(c)) == NotifyDevice(s, c) && Next(s, SNotify(c)).contexts == s.contexts
  {
  }

  lemma PostedWaits(s: State, c: nat)
    requires c in s.contexts && s.contexts[c].sem > 0
    requires Inv(s)
    ensures At(s, c) && (s.callers[c].Notify? || s.callers[c].Wait?) && Settled(s.h.stage, s.ist, s.callers[c].p)
  {
    hide FreeOk, CallersOk, HandlerOk, FlightOk, StageOk, ServedOk, AvailOk, BumpOk, UsedOk, HolderOk;
    hide CallersMem, TicketsMem, HandlerMem, HandOverOk, KickOk, CallerMem;
    assert CallerCtx(c, s.callers[c], s.contexts, s.h.published, s.h.stage, s.h.served, s.ist);
  }

  lemma HandlerElsewhere(s: State, c: nat)
    requires c in s.contexts && s.contexts[c].sem > 0
    requires Inv(s)
    ensures Handled(s.ist).Some? ==>
              Handled(s.ist).value < |s.h.published| && s.h.published[Handled(s.ist).value].caller != c
    ensures s.ist.CopyValue? || s.ist.Post? ==> s.ist.c != c
  {
    hide FreeOk, CallersOk, HandlerOk, FlightOk, StageOk, ServedOk, AvailOk, BumpOk, UsedOk, HolderOk;
    hide CallersMem, TicketsMem, HandlerMem, ContextsOk, HandOverOk, KickOk, CallerMem, TicketMem;
    if Handled(s.ist).Some? {
      PostedWaits(s, c);
      HandledChain(s);
      ContextSafetyCtx(s, Handled(s.ist).value);
    }
  }

  lemma HandledChain(s: State)
    requires HandlerMem(MemoryOf(s), s.ist, s.h.published, s.h.served) && Handled(s.ist).Some?
    ensures Handled(s.ist).value < |s.h.published|
    ensures s.ist.CopyValue? || s.ist.Post? ==> s.ist.c == s.h.published[Handled(s.ist).value].caller
  {
    hide TicketMem;
  }

  lemma StatusGoesTo(s: State)
    requires Inv(s)
    ensures s.ist.Found? ==>
      && s.ist.p < |s.h.published| && InTable(s.vq, s.ist.i0)
      && s.vq.extras[s.ist.i0].context == Some(s.h.published[s.ist.p].caller)
  {
    hide FreeOk, CallersOk, HandlerOk, FlightOk, StageOk, ServedOk, AvailOk, BumpOk, UsedOk, HolderOk;
    hide CallersMem, TicketsMem, ContextsOk, HandOverOk, KickOk, CallerMem, Carries;
  }

  // ----- Interrupts -----

  /** No completion is lost: while one is uncollected its interrupt is set, or the device is about to raise it,
      or the thread is past its wait and has not made its final empty check. */
  lemma NoLostCompletion(s: State)
    requires Reachable(s) && s.vq.usedIdx != s.vq.lastSeen
    ensures s.irq || s.dev.mustRaise || !s.ist.Waiting?
  {
    hide Reachable, FreeOk, CallersOk, HandlerOk, FlightOk, StageOk, ServedOk, AvailOk, BumpOk, UsedOk, HolderOk;
    hide CallersMem, TicketsMem, HandlerMem, ContextsOk, HandOverOk, KickOk, CallerMem;
    ReachableInv(s);
    EmptyIsExactInv(s);
  }
}
