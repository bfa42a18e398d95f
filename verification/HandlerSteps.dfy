/** Every step of the interrupt thread keeps the invariant. */
module HandlerSteps {
  import opened Words
  import opened VirtqSpec
  import opened Protocol
  import opened Invariant
  import opened Frames

  // ----- Waiting, waking, acknowledging -----

  predicate HoldsNothing(ist: Ist) {
    ist.Waiting? || ist.Woken? || ist.Ack? || ist.Drain?
  }

  /** The thread moves between points where it holds no chain. */
  lemma ThreadMoves(s: State, ist: Ist)
    requires HoldsNothing(s.ist) && HoldsNothing(ist)
    requires HandlerOk(s.ist, s.h.owner)
    requires ContextsOk(s.callers, s.contexts, s.h.published, s.h.stage, s.h.served, s.ist)
    requires HandOverOk(s.ist, s.contexts, s.h.stage, s.h.completed, s.h.collected, s.h.served, s.h.delivered)
    ensures HandlerOk(ist, s.h.owner) && HandlerMem(MemoryOf(s), ist, s.h.published, s.h.served)
    ensures ContextsOk(s.callers, s.contexts, s.h.published, s.h.stage, s.h.served, ist)
    ensures HandOverOk(ist, s.contexts, s.h.stage, s.h.completed, s.h.collected, s.h.served, s.h.delivered)
  {
    HandledKeepsContexts(s, ist);
  }

  /** Who is settled depends on the thread only through the chain it hands over. */
  lemma HandledKeepsContexts(s: State, ist: Ist)
    requires Handled(ist) == Handled(s.ist)
    requires ContextsOk(s.callers, s.contexts, s.h.published, s.h.stage, s.h.served, s.ist)
    ensures ContextsOk(s.callers, s.contexts, s.h.published, s.h.stage, s.h.served, ist)
  {
    assert forall q: nat :: Settled(s.h.stage, ist, q) <==> Settled(s.h.stage, s.ist, q);
    forall c: nat | c < |s.callers|
      ensures CallerCtx(c, s.callers[c], s.contexts, s.h.published, s.h.stage, s.h.served, ist)
    {
      assert CallerCtx(c, s.callers[c], s.contexts, s.h.published, s.h.stage, s.h.served, s.ist);
    }
  }

  lemma WakeInv(s: State)
    requires Enabled(s, IWake)
    requires Inv(s)
    ensures Inv(Next(s, IWake))
  {
    hide FreeOk, CallersOk, HandlerOk, FlightOk, StageOk, ServedOk, AvailOk, BumpOk, UsedOk, HolderOk;
    hide CallersMem, TicketsMem, HandlerMem, ContextsOk, HandOverOk, KickOk, CallerMem;
    ThreadMoves(s, Woken);
  }

  lemma ReadInv(s: State)
    requires Enabled(s, IRead)
    requires Inv(s)
    ensures Inv(Next(s, IRead))
  {
    hide FreeOk, CallersOk, HandlerOk, FlightOk, StageOk, ServedOk, AvailOk, BumpOk, UsedOk, HolderOk;
    hide CallersMem, TicketsMem, HandlerMem, ContextsOk, HandOverOk, KickOk, CallerMem;
    ThreadMoves(s, Ack(s.irq));
  }

  lemma AckInv(s: State)
    requires Enabled(s, IAck)
    requires Inv(s)
    ensures Inv(Next(s, IAck))
  {
    hide FreeOk, CallersOk, HandlerOk, FlightOk, StageOk, ServedOk, AvailOk, BumpOk, UsedOk, HolderOk;
    hide CallersMem, TicketsMem, HandlerMem, ContextsOk, HandOverOk, KickOk, CallerMem;
    ThreadMoves(s, Drain);
  }

  // ----- Collecting a chain -----

  /** The 16-bit emptiness test is exact: what is pending never exceeds the ring. */
  lemma EmptinessExact(s: State)
    requires FlightOk(s.h.published, s.h.stage, s.h.collected, s.h.owner) && |s.h.owner| == s.vq.num < WORD
    requires StageOk(s.h.stage, s.dev, s.h.completed, s.h.collected)
    requires s.vq.usedIdx == |s.h.completed| % WORD && s.vq.lastSeen == s.h.collected % WORD
    ensures s.vq.usedIdx == s.vq.lastSeen <==> |s.h.completed| == s.h.collected
    ensures Distance16(s.vq.lastSeen, s.vq.usedIdx) == |s.h.completed| - s.h.collected
    ensures 2 * (|s.h.completed| - s.h.collected) <= s.vq.num
  {
    FlightBound(s.h.published, s.h.stage, s.h.collected, s.h.owner);
    WrappedEquality(s.h.collected, |s.h.completed|);
  }

  /** The next used element names the oldest uncollected completion, and its chain reads back as its two descriptors. */
  lemma NextCompletion(s: State)
    requires s.h.collected < |s.h.completed| && ShapeOk(s.vq) && LinksOk(s.vq.desc)
    requires IsPow2(s.vq.num) && s.vq.num <= 32768 && |s.h.owner| == s.vq.num
    requires s.vq.lastSeen == s.h.collected % WORD && s.vq.usedIdx != s.vq.lastSeen
    requires FlightOk(s.h.published, s.h.stage, s.h.collected, s.h.owner)
    requires StageOk(s.h.stage, s.dev, s.h.completed, s.h.collected)
    requires UsedOk(s.vq.num, s.vq.usedIdx, s.vq.usedRing, s.vq.lastSeen, s.h.published, s.h.completed, s.h.collected,
             s.dev)
    requires TicketsMem(MemoryOf(s), s.h.published, s.h.stage, s.h.served)
    ensures var p := s.h.completed[s.h.collected];
            && p < |s.h.published| && s.h.stage[p] == Used(s.h.collected)
            && var t := s.h.published[p];
               && t.head < |s.h.owner| && t.tail < |s.h.owner| && t.head != t.tail
               && s.h.owner[t.head] == s.h.owner[t.tail] == InFlight(p)
               && TicketMem(MemoryOf(s), t, p, s.h.served)
               && NextUsedHead(s.vq) == t.head && UsedIdOk(s.vq)
               && GetDescChain(s.vq, CHAIN_ROOM) == (s.vq.(lastSeen := Inc16(s.vq.lastSeen)), EOK, [t.head, t.tail])
  {
    hide FlightOk, StageOk, UsedOk, TicketsMem, TicketMem;
    SlotOfWrapped(s.h.collected, s.vq.num);
    OldestUsed(s);
    OldestFlight(s, s.h.completed[s.h.collected]);
    var t := s.h.published[s.h.completed[s.h.collected]];
    PairInTable(s, t, s.h.completed[s.h.collected]);
    WalkOfPair(s.vq.desc, t.head, t.tail);
  }

  lemma OldestUsed(s: State)
    requires s.h.collected < |s.h.completed| && |s.vq.usedRing| == s.vq.num > 0
    requires StageOk(s.h.stage, s.dev, s.h.completed, s.h.collected)
    requires UsedOk(s.vq.num, s.vq.usedIdx, s.vq.usedRing, s.vq.lastSeen, s.h.published, s.h.completed, s.h.collected,
             s.dev)
    ensures var p := s.h.completed[s.h.collected];
            && p < |s.h.published| && p < |s.h.stage| && s.h.stage[p] == Used(s.h.collected)
            && s.vq.usedRing[s.h.collected % s.vq.num].id == s.h.published[p].head
  {
  }

  lemma OldestFlight(s: State, p: nat)
    requires Outstanding(s.h.stage, p) && p < |s.h.published|
    requires FlightOk(s.h.published, s.h.stage, s.h.collected, s.h.owner)
    requires TicketsMem(MemoryOf(s), s.h.published, s.h.stage, s.h.served)
    ensures var t := s.h.published[p];
            && t.head < |s.h.owner| && t.tail < |s.h.owner| && t.head != t.tail
            && s.h.owner[t.head] == s.h.owner[t.tail] == InFlight(p)
            && TicketMem(MemoryOf(s), t, p, s.h.served)
  {
    hide TicketMem;
  }

  lemma PairInTable(s: State, t: Ticket, p: nat)
    requires TicketMem(MemoryOf(s), t, p, s.h.served)
    ensures t.head < |s.vq.desc| && t.tail < |s.vq.desc|
    ensures HasNext(s.vq.desc[t.head]) && s.vq.desc[t.head].next == t.tail && !HasNext(s.vq.desc[t.tail])
  {
    FlagFacts(0);
  }

  lemma WalkOfPair(desc: seq<Desc>, i0: nat, i1: nat)
    requires LinksOk(desc) && i0 < |desc| && i1 < |desc|
    requires HasNext(desc[i0]) && desc[i0].next == i1 && !HasNext(desc[i1])
    ensures Walk(desc, i0, CHAIN_ROOM) == [i0, i1] && EndsWithin(desc, i0, CHAIN_ROOM)
  {
    WalkOfChain(desc, [i0, i1], CHAIN_ROOM);
  }

  lemma GetInv(s: State)
    requires Enabled(s, IGet)
    requires Inv(s)
    ensures Inv(GetChain(s))
  {
    hide FreeOk, CallersOk, HandlerOk, FlightOk, StageOk, ServedOk, AvailOk, BumpOk, UsedOk, HolderOk;
    hide CallersMem, TicketsMem, HandlerMem, ContextsOk, HandOverOk, KickOk, CallerMem;
    InvShape(s);
    EmptinessExact(s);
    if s.vq.usedIdx == s.vq.lastSeen {
      ThreadMoves(s, Waiting);
    } else {
      CollectInv(s);
    }
  }

  lemma CollectInv(s: State)
    requires Enabled(s, IGet) && s.vq.usedIdx != s.vq.lastSeen
    requires Inv(s)
    ensures Inv(GetChain(s))
  {
    hide FreeOk, CallersOk, HandlerOk, FlightOk, StageOk, ServedOk, AvailOk, BumpOk, UsedOk, HolderOk;
    hide CallersMem, TicketsMem, HandlerMem, ContextsOk, HandOverOk, KickOk, CallerMem;
    hide TicketMem;
    InvShape(s);
    EmptinessExact(s);
    CollectedBound(s);
    NextCompletion(s);
    var p := s.h.completed[s.h.collected];
    var t := s.h.published[p];
    CollectOwners(s, p);
    CollectFlight(s, p);
    CollectHistory(s, p);
    CollectMem(s, p);
    CollectContexts(s, p);
  }

  lemma CollectedBound(s: State)
    requires StageOk(s.h.stage, s.dev, s.h.completed, s.h.collected)
    ensures s.h.collected <= |s.h.completed|
  {
  }

  /** The owners once both descriptors of a chain are with the handler. */
  function Landed(owner: seq<Owner>, t: Ticket): seq<Owner>
    requires t.head < |owner| && t.tail < |owner|
  {
    owner[t.head := Handling][t.tail := Handling]
  }

  lemma CollectOwners(s: State, p: nat)
    requires s.ist.Drain? && p < |s.h.published|
    requires var t := s.h.published[p];
             && t.head < |s.h.owner| && t.tail < |s.h.owner| && t.head != t.tail
             && s.h.owner[t.head] == s.h.owner[t.tail] == InFlight(p)
    requires FreeOk(s.vq.free, s.h.owner, s.vq.desc, s.vq.extras)
    requires CallersOk(s.callers, s.h.owner) && HandlerOk(s.ist, s.h.owner)
    ensures var t := s.h.published[p]; var owner := Landed(s.h.owner, t);
            && FreeOk(s.vq.free, owner, s.vq.desc, s.vq.extras)
            && CallersOk(s.callers, owner)
            && HandlerOk(Found(t.head, t.tail, p), owner)
  {
    var t := s.h.published[p];
    CollectHandler(s.ist, s.h.owner, t, p);
    hide FreeOk, CallersOk, HandlerOk;
    FreeKept(s.vq.free, s.h.owner, s.vq.desc, s.vq.extras, t.head, Handling);
    FreeKept(s.vq.free, s.h.owner[t.head := Handling], s.vq.desc, s.vq.extras, t.tail, Handling);
    CallersUntouched(s.callers, s.h.owner, t.head, Handling);
    CallersUntouched(s.callers, s.h.owner[t.head := Handling], t.tail, Handling);
  }

  lemma CollectHandler(ist: Ist, owner: seq<Owner>, t: Ticket, p: nat)
    requires HandlerOk(ist, owner) && HeldByHandler(ist) == {}
    requires t.head < |owner| && t.tail < |owner| && t.head != t.tail
    requires owner[t.head] == owner[t.tail] == InFlight(p)
    ensures HandlerOk(Found(t.head, t.tail, p), Landed(owner, t))
  {
    CountUpdate(owner, t.head, Handling, KHandling);
    CountUpdate(owner[t.head := Handling], t.tail, Handling, KHandling);
  }

  lemma CollectFlight(s: State, p: nat)
    requires p < |s.h.stage| && p < |s.h.published| && s.h.stage[p] == Used(s.h.collected)
    requires FlightOk(s.h.published, s.h.stage, s.h.collected, s.h.owner)
    ensures var t := s.h.published[p];
            && t.head < |s.h.owner| && t.tail < |s.h.owner|
            && FlightOk(s.h.published, s.h.stage[p := Collected(s.h.collected)], s.h.collected + 1,
                 Landed(s.h.owner, t))
  {
    var t := s.h.published[p];
    assert Outstanding(s.h.stage, p);
    CountUpdate(s.h.owner, t.head, Handling, KInFlight);
    CountUpdate(s.h.owner[t.head := Handling], t.tail, Handling, KInFlight);
    forall q: nat | q < |s.h.published| && Outstanding(s.h.stage[p := Collected(s.h.collected)], q)
      ensures Outstanding(s.h.stage, q) && q != p {}
  }

  lemma CollectHistory(s: State, p: nat)
    requires s.h.collected < |s.h.completed| && p == s.h.completed[s.h.collected]
    requires StageOk(s.h.stage, s.dev, s.h.completed, s.h.collected) && |s.h.stage| == |s.h.published|
    requires ServedOk(s.h.published, s.h.stage, s.dev.work, s.h.served)
    requires UsedOk(s.vq.num, s.vq.usedIdx, s.vq.usedRing, s.vq.lastSeen, s.h.published, s.h.completed, s.h.collected,
             s.dev)
    ensures p < |s.h.stage| && p in s.h.served
    ensures var stage := s.h.stage[p := Collected(s.h.collected)];
            && StageOk(stage, s.dev, s.h.completed, s.h.collected + 1)
            && ServedOk(s.h.published, stage, s.dev.work, s.h.served)
            && UsedOk(s.vq.num, s.vq.usedIdx, s.vq.usedRing, Inc16(s.vq.lastSeen), s.h.published, s.h.completed,
                 s.h.collected + 1, s.dev)
  {
    hide StageOk, ServedOk, UsedOk;
    CollectStage(s, p);
    CollectServed(s, p);
    CollectUsed(s);
  }

  lemma CollectStage(s: State, p: nat)
    requires s.h.collected < |s.h.completed| && p == s.h.completed[s.h.collected]
    requires StageOk(s.h.stage, s.dev, s.h.completed, s.h.collected)
    ensures p < |s.h.stage| && s.h.stage[p] == Used(s.h.collected)
    ensures StageOk(s.h.stage[p := Collected(s.h.collected)], s.dev, s.h.completed, s.h.collected + 1)
  {
  }

  lemma CollectServed(s: State, p: nat)
    requires p < |s.h.stage| && s.h.stage[p] == Used(s.h.collected)
    requires ServedOk(s.h.published, s.h.stage, s.dev.work, s.h.served)
    ensures p in s.h.served
    ensures ServedOk(s.h.published, s.h.stage[p := Collected(s.h.collected)], s.dev.work, s.h.served)
  {
  }

  lemma CollectUsed(s: State)
    requires s.h.collected < |s.h.completed|
    requires UsedOk(s.vq.num, s.vq.usedIdx, s.vq.usedRing, s.vq.lastSeen, s.h.published, s.h.completed, s.h.collected,
             s.dev)
    ensures UsedOk(s.vq.num, s.vq.usedIdx, s.vq.usedRing, Inc16(s.vq.lastSeen), s.h.published, s.h.completed,
            s.h.collected + 1, s.dev)
  {
  }

  lemma CollectMem(s: State, p: nat)
    requires p < |s.h.published| && TicketMem(MemoryOf(s), s.h.published[p], p, s.h.served)
    requires TicketsMem(MemoryOf(s), s.h.published, s.h.stage, s.h.served)
    ensures TicketsMem(MemoryOf(s), s.h.published, s.h.stage[p := Collected(s.h.collected)], s.h.served)
    ensures HandlerMem(MemoryOf(s), Found(s.h.published[p].head, s.h.published[p].tail, p), s.h.published, s.h.served)
  {
    hide TicketMem;
    forall q: nat | q < |s.h.published| && Outstanding(s.h.stage[p := Collected(s.h.collected)], q)
      ensures Outstanding(s.h.stage, q) {}
  }

  lemma CollectContexts(s: State, p: nat)
    requires s.ist.Drain? && s.h.collected < |s.h.completed| && p == s.h.completed[s.h.collected]
    requires p < |s.h.stage| && s.h.stage[p].Used? && p in s.h.served && p < |s.h.published|
    requires ContextsOk(s.callers, s.contexts, s.h.published, s.h.stage, s.h.served, s.ist)
    requires HandOverOk(s.ist, s.contexts, s.h.stage, s.h.completed, s.h.collected, s.h.served, s.h.delivered)
    ensures var ist := Found(s.h.published[p].head, s.h.published[p].tail, p);
            var stage := s.h.stage[p := Collected(s.h.collected)];
            && ContextsOk(s.callers, s.contexts, s.h.published, stage, s.h.served, ist)
            && HandOverOk(ist, s.contexts, stage, s.h.completed, s.h.collected + 1, s.h.served, s.h.delivered)
  {
    var ist := Found(s.h.published[p].head, s.h.published[p].tail, p);
    var stage := s.h.stage[p := Collected(s.h.collected)];
    assert forall q: nat :: Settled(stage, ist, q) <==> Settled(s.h.stage, s.ist, q);
    forall c: nat | c < |s.callers|
      ensures CallerCtx(c, s.callers[c], s.contexts, s.h.published, stage, s.h.served, ist)
    {
      assert CallerCtx(c, s.callers[c], s.contexts, s.h.published, s.h.stage, s.h.served, s.ist);
    }
  }

  // ----- Handing a response over -----

  /** Nothing about the table, the buffers or the owners changes while a response is handed over. */
  lemma StatusInv(s: State)
    requires Enabled(s, IStatus)
    requires Inv(s)
    ensures Inv(CopyStatus(s))
  {
    hide FreeOk, CallersOk, HandlerOk, FlightOk, StageOk, ServedOk, AvailOk, BumpOk, UsedOk, HolderOk;
    hide CallersMem, TicketsMem, HandlerMem, ContextsOk, HandOverOk, KickOk, CallerMem;
    HandlerIsDistinct(s);
    HandOverFacts(s, s.ist.i0, s.ist.i1, s.ist.p);
    var p := s.ist.p;
    var c := s.h.published[p].caller;
    HandOverContexts(s, CopyValue(s.ist.i0, s.ist.i1, c, p), c, s.contexts[c].(status := s.h.served[p].status));
    HandOverHolds(s, CopyValue(s.ist.i0, s.ist.i1, c, p));
    StatusHandOver(s, c);
  }

  lemma StatusHandOver(s: State, c: nat)
    requires s.ist.Found? && c in s.contexts && s.ist.p in s.h.served
    requires HandOverOk(s.ist, s.contexts, s.h.stage, s.h.completed, s.h.collected, s.h.served, s.h.delivered)
    ensures HandOverOk(CopyValue(s.ist.i0, s.ist.i1, c, s.ist.p),
            s.contexts[c := s.contexts[c].(status := s.h.served[s.ist.p].status)],
                       s.h.stage, s.h.completed, s.h.collected, s.h.served, s.h.delivered)
  {
  }

  /** What the thread finds when it looks at the chain it handles. */
  lemma HandOverFacts(s: State, i0: nat, i1: nat, p: nat)
    requires Handled(s.ist) == Some(p) && HeldByHandler(s.ist) == {i0, i1}
    requires s.ist.Found? ==> s.ist.i0 == i0 && s.ist.i1 == i1
    requires s.ist.CopyValue? ==> s.ist.i0 == i0 && s.ist.i1 == i1
    requires s.ist.Post? ==> s.ist.i0 == i0 && s.ist.i1 == i1
    requires HandlerMem(MemoryOf(s), s.ist, s.h.published, s.h.served)
    requires ContextsOk(s.callers, s.contexts, s.h.published, s.h.stage, s.h.served, s.ist)
    requires HandOverOk(s.ist, s.contexts, s.h.stage, s.h.completed, s.h.collected, s.h.served, s.h.delivered)
    ensures p < |s.h.published| && p in s.h.served
    ensures var c := s.h.published[p].caller;
            && CallbackSafe(s, i0, i1, c) && s.vq.extras[i0].context == Some(c)
            && s.vq.mem[s.vq.extras[i1].vaddr] == Response(s.h.served[p].status, s.h.served[p].value)
            && At(s, c) && Pending(s.callers[c], p) && !Settled(s.h.stage, s.ist, p)
            && (s.ist.CopyValue? ==> s.ist.c == c) && (s.ist.Post? ==> s.ist.c == c)
    ensures Bound(MemoryOf(s), i0) && Bound(MemoryOf(s), i1)
  {
    assert !Settled(s.h.stage, s.ist, p);
  }

  /** Filling in the context of the one caller that waits for this chain. */
  lemma HandOverContexts(s: State, ist: Ist, c: nat, x: Context)
    requires Handled(ist) == Handled(s.ist) && Handled(s.ist).Some?
    requires ContextsOk(s.callers, s.contexts, s.h.published, s.h.stage, s.h.served, s.ist)
    requires At(s, c) && Pending(s.callers[c], Handled(s.ist).value)
    requires c in s.contexts && x.sem == s.contexts[c].sem
    ensures ContextsOk(s.callers, s.contexts[c := x], s.h.published, s.h.stage, s.h.served, ist)
  {
    var p := Handled(s.ist).value;
    assert !Settled(s.h.stage, s.ist, p);
    assert forall q: nat :: Settled(s.h.stage, ist, q) <==> Settled(s.h.stage, s.ist, q);
    forall d: nat | d < |s.callers|
      ensures CallerCtx(d, s.callers[d], s.contexts[c := x], s.h.published, s.h.stage, s.h.served, ist)
    {
      assert CallerCtx(d, s.callers[d], s.contexts, s.h.published, s.h.stage, s.h.served, s.ist);
    }
  }

  lemma HandOverHolds(s: State, ist: Ist)
    requires HeldByHandler(ist) == HeldByHandler(s.ist) && HandlerDistinct(ist)
    requires HandlerOk(s.ist, s.h.owner) && HandlerMem(MemoryOf(s), s.ist, s.h.published, s.h.served)
    requires s.ist.Found? || s.ist.CopyValue? || s.ist.Post?
    requires (s.ist.Found? && ist.CopyValue? && ist.i0 == s.ist.i0 && ist.i1 == s.ist.i1 && ist.p == s.ist.p
              && s.ist.p < |s.h.published| && ist.c == s.h.published[s.ist.p].caller)
          || (s.ist.CopyValue? && ist == Post(s.ist.i0, s.ist.i1, s.ist.c, s.ist.p))
          || (s.ist.Post? && ist == Freeing(s.ist.i0, Unmap, Some(s.ist.i1)))
    ensures HandlerOk(ist, s.h.owner)
    ensures HandlerMem(MemoryOf(s), ist, s.h.published, s.h.served)
  {
    hide Bound, Carries;
  }

  lemma HandlerIsDistinct(s: State)
    requires HandlerOk(s.ist, s.h.owner)
    ensures HandlerDistinct(s.ist)
  {
  }

  lemma ValueInv(s: State)
    requires Enabled(s, IValue)
    requires Inv(s)
    ensures Inv(CopyVal(s))
  {
    hide FreeOk, CallersOk, HandlerOk, FlightOk, StageOk, ServedOk, AvailOk, BumpOk, UsedOk, HolderOk;
    hide CallersMem, TicketsMem, HandlerMem, ContextsOk, HandOverOk, KickOk, CallerMem;
    HandlerIsDistinct(s);
    HandOverFacts(s, s.ist.i0, s.ist.i1, s.ist.p);
    var p, c := s.ist.p, s.ist.c;
    HandOverContexts(s, Post(s.ist.i0, s.ist.i1, c, p), c, s.contexts[c].(value := s.h.served[p].value));
    HandOverHolds(s, Post(s.ist.i0, s.ist.i1, c, p));
    ValueHandOver(s);
  }

  lemma ValueHandOver(s: State)
    requires s.ist.CopyValue? && s.ist.c in s.contexts && s.ist.p in s.h.served
    requires HandOverOk(s.ist, s.contexts, s.h.stage, s.h.completed, s.h.collected, s.h.served, s.h.delivered)
    ensures HandOverOk(Post(s.ist.i0, s.ist.i1, s.ist.c, s.ist.p),
                       s.contexts[s.ist.c := s.contexts[s.ist.c].(value := s.h.served[s.ist.p].value)],
                       s.h.stage, s.h.completed, s.h.collected, s.h.served, s.h.delivered)
  {
  }

  lemma PostInv(s: State)
    requires Enabled(s, IPost)
    requires Inv(s)
    ensures Inv(PostSem(s))
  {
    hide FreeOk, CallersOk, HandlerOk, FlightOk, StageOk, ServedOk, AvailOk, BumpOk, UsedOk, HolderOk;
    hide CallersMem, TicketsMem, HandlerMem, ContextsOk, HandOverOk, KickOk, CallerMem;
    HandlerIsDistinct(s);
    HandOverFacts(s, s.ist.i0, s.ist.i1, s.ist.p);
    HandOverHolds(s, Freeing(s.ist.i0, Unmap, Some(s.ist.i1)));
    PostContexts(s);
    PostDelivers(s);
  }

  /** Posting settles exactly the chain that was handed over. */
  lemma PostContexts(s: State)
    requires s.ist.Post? && At(s, s.ist.c) && Pending(s.callers[s.ist.c], s.ist.p) && s.ist.c in s.contexts
    requires ContextsOk(s.callers, s.contexts, s.h.published, s.h.stage, s.h.served, s.ist)
    requires HandOverOk(s.ist, s.contexts, s.h.stage, s.h.completed, s.h.collected, s.h.served, s.h.delivered)
    ensures ContextsOk(s.callers, PostSem(s).contexts, s.h.published, s.h.stage, s.h.served, PostSem(s).ist)
  {
    var p, c, ist := s.ist.p, s.ist.c, PostSem(s).ist;
    assert !Settled(s.h.stage, s.ist, p);
    assert forall q: nat :: Settled(s.h.stage, ist, q) <==> (Settled(s.h.stage, s.ist, q) || q == p);
    assert CallerCtx(c, s.callers[c], s.contexts, s.h.published, s.h.stage, s.h.served, s.ist);
    forall d: nat | d < |s.callers|
      ensures CallerCtx(d, s.callers[d], PostSem(s).contexts, s.h.published, s.h.stage, s.h.served, ist)
    {
      assert CallerCtx(d, s.callers[d], s.contexts, s.h.published, s.h.stage, s.h.served, s.ist);
    }
  }

  lemma PostDelivers(s: State)
    requires s.ist.Post? && s.ist.c in s.contexts
    requires HandOverOk(s.ist, s.contexts, s.h.stage, s.h.completed, s.h.collected, s.h.served, s.h.delivered)
    ensures HandOverOk(PostSem(s).ist, PostSem(s).contexts, s.h.stage, s.h.completed, s.h.collected, s.h.served,
            PostSem(s).h.delivered)
  {
    var k := s.h.collected;
    assert s.h.completed[..k] == s.h.completed[..k - 1] + [s.h.completed[k - 1]];
  }

  // ----- Freeing the two descriptors -----

  lemma FreeingFacts(s: State)
    requires s.ist.Freeing?
    requires Inv(s)
    ensures |s.vq.desc| == |s.vq.extras| == |s.h.owner| == s.vq.num && LinksOk(s.vq.desc)
    ensures HolderOk(MemoryOf(s), s.callers) && HandlerOk(s.ist, s.h.owner)
    ensures HandlerMem(MemoryOf(s), s.ist, s.h.published, s.h.served)
    ensures s.ist.i < |s.h.owner| && s.h.owner[s.ist.i] == Handling
  {
    hide FreeOk, CallersOk, FlightOk, StageOk, ServedOk, AvailOk, BumpOk, UsedOk, HolderOk;
    hide CallersMem, TicketsMem, ContextsOk, HandOverOk, KickOk, Bound, NoBuffer;
    assert s.ist.i in HeldByHandler(s.ist);
  }

  lemma FreeInv(s: State)
    requires Enabled(s, IFree)
    requires Inv(s)
    ensures Inv(HandlerFree(s))
  {
    hide Inv;
    match s.ist.phase
    case Unmap => FreeUnmapInv(s);
    case Clear => FreeClearInv(s);
    case Give => FreeGiveInv(s);
  }

  /** The handler changed memory to `m` and moved on with the same descriptors. */
  lemma HandlerTouches(s: State, m: Memory, ist: Ist)
    requires s.ist.Freeing? && ist.Freeing? && HeldByHandler(ist) == HeldByHandler(s.ist) && HandlerDistinct(ist)
    requires |m.desc| == |m.extras| == s.vq.num && LinksOk(m.desc)
    requires OnlyTouches(MemoryOf(s), m, s.h.owner, Handling) && KeepsAllLoose(MemoryOf(s), m)
    requires HolderOk(m, s.callers) && HandlerMem(m, ist, s.h.published, s.h.served)
    requires Inv(s)
    ensures Inv(s.(ist := ist, vq := s.vq.(desc := m.desc, extras := m.extras, mem := m.mem),
            h := s.h.(holder := m.holder)))
  {
    hide FreeOk, CallersOk, HandlerOk, FlightOk, StageOk, ServedOk, AvailOk, BumpOk, UsedOk, HolderOk;
    hide CallersMem, TicketsMem, HandlerMem, ContextsOk, HandOverOk, KickOk, CallerMem;
    MemByHandler(MemoryOf(s), m, s);
    HandlerTouchesNoFree(s, m);
    FreeUntouched(s.vq.free, s.h.owner, s.vq.desc, s.vq.extras, m.desc, m.extras);
    FreeingKeepsRest(s, ist);
    var s' := s.(ist := ist, vq := s.vq.(desc := m.desc, extras := m.extras, mem := m.mem),
        h := s.h.(holder := m.holder));
    assert MemoryOf(s') == m;
  }

  lemma HandlerTouchesNoFree(s: State, m: Memory)
    requires OnlyTouches(MemoryOf(s), m, s.h.owner, Handling)
    requires |s.h.owner| == |s.vq.desc| == |s.vq.extras| == |m.desc| == |m.extras|
    ensures forall i: nat :: i < |s.h.owner| && s.h.owner[i].Free? ==>
              m.desc[i] == s.vq.desc[i] && m.extras[i] == s.vq.extras[i]
  {
    hide Bound, NoBuffer;
    forall i: nat | i < |s.h.owner| && s.h.owner[i].Free? ensures m.desc[i] == s.vq.desc[i]
        && m.extras[i] == s.vq.extras[i] {
      assert SameAt(MemoryOf(s), m, i);
    }
  }

  lemma FreeingKeepsRest(s: State, ist: Ist)
    requires s.ist.Freeing? && ist.Freeing? && HeldByHandler(ist) == HeldByHandler(s.ist) && HandlerDistinct(ist)
    requires HandlerOk(s.ist, s.h.owner)
    requires ContextsOk(s.callers, s.contexts, s.h.published, s.h.stage, s.h.served, s.ist)
    requires HandOverOk(s.ist, s.contexts, s.h.stage, s.h.completed, s.h.collected, s.h.served, s.h.delivered)
    ensures HandlerOk(ist, s.h.owner)
    ensures ContextsOk(s.callers, s.contexts, s.h.published, s.h.stage, s.h.served, ist)
    ensures HandOverOk(ist, s.contexts, s.h.stage, s.h.completed, s.h.collected, s.h.served, s.h.delivered)
  {
    HandledKeepsContexts(s, ist);
  }

  lemma FreeUnmapInv(s: State)
    requires Enabled(s, IFree) && s.ist.phase.Unmap?
    requires Inv(s)
    ensures Inv(HandlerFree(s))
  {
    hide FreeOk, CallersOk, HandlerOk, FlightOk, StageOk, ServedOk, AvailOk, BumpOk, UsedOk, HolderOk;
    hide CallersMem, TicketsMem, HandlerMem, ContextsOk, HandOverOk, KickOk, CallerMem;
    hide Inv;
    FreeingFacts(s);
    HandlerIsDistinct(s);
    var m := MemoryOf(s);
    var b := m.extras[s.ist.i].vaddr;
    var m' := m.(mem := m.mem - {b}, holder := m.holder - {b});
    FreeUnmapMem(m, m', s);
    HandlerTouches(s, m', Freeing(s.ist.i, Clear, s.ist.rest));
  }

  lemma FreeUnmapMem(m: Memory, m': Memory, s: State)
    requires m == MemoryOf(s) && s.ist.Freeing? && s.ist.phase.Unmap? && HandlerDistinct(s.ist)
    requires HolderOk(m, s.callers) && HandlerMem(m, s.ist, s.h.published, s.h.served)
    requires |s.h.owner| == |m.desc| == |m.extras| && s.ist.i < |s.h.owner| && s.h.owner[s.ist.i] == Handling
    requires m' == m.(mem := m.mem - {m.extras[s.ist.i].vaddr}, holder := m.holder - {m.extras[s.ist.i].vaddr})
    ensures m.extras[s.ist.i].vaddr in m.mem
    ensures OnlyTouches(m, m', s.h.owner, Handling) && KeepsAllLoose(m, m')
    ensures HolderOk(m', s.callers) && HandlerMem(m', Freeing(s.ist.i, Clear, s.ist.rest), s.h.published, s.h.served)
  {
  }

  lemma FreeClearInv(s: State)
    requires Enabled(s, IFree) && s.ist.phase.Clear?
    requires Inv(s)
    ensures Inv(HandlerFree(s))
  {
    hide FreeOk, CallersOk, HandlerOk, FlightOk, StageOk, ServedOk, AvailOk, BumpOk, UsedOk, HolderOk;
    hide CallersMem, TicketsMem, HandlerMem, ContextsOk, HandOverOk, KickOk, CallerMem;
    hide Inv;
    FreeingFacts(s);
    HandlerIsDistinct(s);
    var m := MemoryOf(s);
    var m' := m.(desc := m.desc[s.ist.i := ZERO_DESC], extras := m.extras[s.ist.i := ZERO_EXTRA]);
    FreeClearMem(m, m', s);
    HandlerTouches(s, m', Freeing(s.ist.i, Give, s.ist.rest));
  }

  lemma FreeClearMem(m: Memory, m': Memory, s: State)
    requires m == MemoryOf(s) && s.ist.Freeing? && s.ist.phase.Clear? && HandlerDistinct(s.ist) && LinksOk(m.desc)
    requires HolderOk(m, s.callers) && HandlerMem(m, s.ist, s.h.published, s.h.served)
    requires |s.h.owner| == |m.desc| == |m.extras| && s.ist.i < |s.h.owner| && s.h.owner[s.ist.i] == Handling
    requires m' == m.(desc := m.desc[s.ist.i := ZERO_DESC], extras := m.extras[s.ist.i := ZERO_EXTRA])
    ensures OnlyTouches(m, m', s.h.owner, Handling) && KeepsAllLoose(m, m') && LinksOk(m'.desc)
    ensures HolderOk(m', s.callers) && HandlerMem(m', Freeing(s.ist.i, Give, s.ist.rest), s.h.published, s.h.served)
  {
  }

  lemma FreeGiveInv(s: State)
    requires Enabled(s, IFree) && s.ist.phase.Give?
    requires Inv(s)
    ensures Inv(HandlerFree(s))
  {
    hide FreeOk, CallersOk, HandlerOk, FlightOk, StageOk, ServedOk, AvailOk, BumpOk, UsedOk, HolderOk;
    hide CallersMem, TicketsMem, HandlerMem, ContextsOk, HandOverOk, KickOk, CallerMem;
    FreeingFacts(s);
    var i := s.ist.i;
    var ist := if s.ist.rest.None? then Drain else Freeing(s.ist.rest.value, Unmap, None);
    FreeGiveFacts(s, ist);
    FreeHasRoom(s.vq.free, s.h.owner, s.vq.desc, s.vq.extras, i);
    FreeGiven(s.vq.free, s.h.owner, s.vq.desc, s.vq.extras, i);
    CallersUntouched(s.callers, s.h.owner, i, Free);
    FlightUntouched(s.h.published, s.h.stage, s.h.collected, s.h.owner, i, Free);
    HandledKeepsContexts(s, ist);
  }

  lemma FreeGiveFacts(s: State, ist: Ist)
    requires s.ist.Freeing? && s.ist.phase.Give?
    requires ist == if s.ist.rest.None? then Drain else Freeing(s.ist.rest.value, Unmap, None)
    requires HandlerOk(s.ist, s.h.owner) && s.ist.i < |s.h.owner| && s.h.owner[s.ist.i] == Handling
    requires HandlerMem(MemoryOf(s), s.ist, s.h.published, s.h.served)
    requires HandOverOk(s.ist, s.contexts, s.h.stage, s.h.completed, s.h.collected, s.h.served, s.h.delivered)
    ensures Zero(MemoryOf(s), s.ist.i)
    ensures HandlerOk(ist, s.h.owner[s.ist.i := Free])
    ensures HandlerMem(MemoryOf(s), ist, s.h.published, s.h.served)
    ensures HandOverOk(ist, s.contexts, s.h.stage, s.h.completed, s.h.collected, s.h.served, s.h.delivered)
  {
    CountUpdate(s.h.owner, s.ist.i, Free, KHandling);
    if s.ist.rest.Some? { assert s.ist.rest.value in HeldByHandler(s.ist); }
  }
}
