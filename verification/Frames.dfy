/** How each part of the invariant survives a change made by one actor. */
module Frames {
  import opened Words
  import opened VirtqSpec
  import opened Protocol
  import opened Invariant

  // ----- Counting owners -----

  function Hit(o: Owner, k: Kind): nat {
    if KindOf(o) == k then 1 else 0
  }

  lemma {:induction false} CountUpdate(owner: seq<Owner>, i: nat, o: Owner, k: Kind)
    requires i < |owner|
    ensures Count(owner[i := o], k) == Count(owner, k) - Hit(owner[i], k) + Hit(o, k)
  {
    var n := |owner| - 1;
    if i == n {
      assert owner[i := o][..n] == owner[..n];
    } else {
      assert owner[i := o][..n] == owner[..n][i := o];
      CountUpdate(owner[..n], i, o, k);
    }
  }

  /** The four kinds of owners share the whole table between them. */
  lemma {:induction false} CountTotal(owner: seq<Owner>)
    ensures Count(owner, KFree) + Count(owner, KBuilding) + Count(owner, KInFlight) + Count(owner, KHandling) == |owner|
  {
    if owner != [] {
      CountTotal(owner[..|owner| - 1]);
    }
  }

  lemma {:induction false} CountOne(owner: seq<Owner>, i: nat)
    requires i < |owner|
    ensures Count(owner, KindOf(owner[i])) >= 1
  {
    if i < |owner| - 1 {
      CountOne(owner[..|owner| - 1], i);
    }
  }

  lemma CountTwo(owner: seq<Owner>, i: nat, j: nat, k: Kind)
    requires i < |owner| && j < |owner| && i != j && KindOf(owner[i]) == k && KindOf(owner[j]) == k
    ensures Count(owner, k) >= 2
  {
    var other := if k == KFree then Handling else Free;
    CountUpdate(owner, i, other, k);
    CountOne(owner[i := other], j);
  }

  lemma {:induction false} AllFree(owner: seq<Owner>)
    requires forall i: nat :: i < |owner| ==> owner[i] == Free
    ensures Count(owner, KFree) == |owner|
    ensures Count(owner, KBuilding) == Count(owner, KInFlight) == Count(owner, KHandling) == 0
  {
    if owner != [] {
      AllFree(owner[..|owner| - 1]);
    }
  }

  // ----- The free list -----

  lemma FreeTaken(free: seq<nat>, owner: seq<Owner>, desc: seq<Desc>, extras: seq<Extra>, o: Owner)
    requires FreeOk(free, owner, desc, extras) && free != [] && !o.Free?
    ensures free[0] < |owner| && owner[free[0]] == Free
    ensures FreeOk(free[1..], owner[free[0] := o], desc, extras)
  {
    CountUpdate(owner, free[0], o, KFree);
    forall i: nat | i < |owner| && owner[i].Free? && i != free[0] ensures i in free[1..] {
      assert free == [free[0]] + free[1..];
    }
  }

  /** The free list has room for every descriptor that is not in it. */
  lemma FreeHasRoom(free: seq<nat>, owner: seq<Owner>, desc: seq<Desc>, extras: seq<Extra>, i: nat)
    requires FreeOk(free, owner, desc, extras) && i < |owner| && !owner[i].Free?
    ensures |free| < |owner|
  {
    CountTotal(owner);
    CountOne(owner, i);
  }

  lemma FreeGiven(free: seq<nat>, owner: seq<Owner>, desc: seq<Desc>, extras: seq<Extra>, i: nat)
    requires FreeOk(free, owner, desc, extras) && i < |owner| && !owner[i].Free?
    requires desc[i] == ZERO_DESC && extras[i] == ZERO_EXTRA
    ensures FreeOk(free + [i], owner[i := Free], desc, extras)
  {
    CountUpdate(owner, i, Free, KFree);
    var f := free + [i];
    assert f[|free|] == i;
    forall j | 0 <= j < |owner| && owner[i := Free][j].Free? ensures j in f {
      if j != i { assert j in free; }
    }
  }

  /** Descriptors that are not free may change hands and contents. */
  lemma FreeKept(free: seq<nat>, owner: seq<Owner>, desc: seq<Desc>, extras: seq<Extra>, i: nat, o: Owner)
    requires FreeOk(free, owner, desc, extras) && i < |owner| && !owner[i].Free? && !o.Free?
    ensures FreeOk(free, owner[i := o], desc, extras)
  {
    CountUpdate(owner, i, o, KFree);
  }

  lemma FreeUntouched(free: seq<nat>, owner: seq<Owner>, desc: seq<Desc>, extras: seq<Extra>, desc': seq<Desc>,
                      extras': seq<Extra>)
    requires FreeOk(free, owner, desc, extras) && |desc'| == |desc| && |extras'| == |extras|
    requires forall i: nat :: i < |owner| && owner[i].Free? ==> desc'[i] == desc[i] && extras'[i] == extras[i]
    ensures FreeOk(free, owner, desc', extras')
  {
  }

  // ----- Callers -----

  /** Caller `c` moves to `pc`; only descriptors it gives or takes change owner. */
  lemma CallerMoves(callers: seq<Caller>, owner: seq<Owner>, c: nat, pc: Caller, owner': seq<Owner>)
    requires CallersOk(callers, owner) && c < |callers| && |owner'| == |owner| && PairDistinct(pc)
    requires forall i: nat :: i in Held(pc) ==> i < |owner'| && owner'[i] == Building(c)
    requires forall i: nat :: i < |owner'| && owner'[i] == Building(c) ==> i in Held(pc)
    requires forall i: nat, d: nat :: 0 <= i < |owner| && d != c ==>
               (owner[i] == Building(d) <==> owner'[i] == Building(d))
    ensures CallersOk(callers[c := pc], owner')
  {
    var after := callers[c := pc];
    forall d: nat, i: nat | 0 <= d < |after| && i in Held(after[d])
      ensures i < |owner'| && owner'[i] == Building(d)
    {
      if d != c {
        assert i in Held(callers[d]);
        assert owner[i] == Building(d);
      }
    }
    forall i: nat | i < |owner'| && owner'[i].Building?
      ensures owner'[i].c < |after| && i in Held(after[owner'[i].c])
    {
      var d := owner'[i].c;
      if d != c { assert owner[i] == Building(d); }
    }
  }

  /** Caller `c` moves on with the same descriptors. */
  lemma CallerStays(callers: seq<Caller>, owner: seq<Owner>, c: nat, pc: Caller)
    requires CallersOk(callers, owner) && c < |callers| && Held(pc) == Held(callers[c]) && PairDistinct(pc)
    ensures CallersOk(callers[c := pc], owner)
  {
    CallerMoves(callers, owner, c, pc, owner);
  }

  /** No caller is involved when a descriptor passes between other kinds of owner. */
  lemma CallersUntouched(callers: seq<Caller>, owner: seq<Owner>, i: nat, o: Owner)
    requires CallersOk(callers, owner) && i < |owner| && !owner[i].Building? && !o.Building?
    ensures CallersOk(callers, owner[i := o])
  {
  }

  // ----- The handler and the chains in flight -----

  lemma HandlerUntouched(ist: Ist, owner: seq<Owner>, i: nat, o: Owner)
    requires HandlerOk(ist, owner) && i < |owner| && !owner[i].Handling? && !o.Handling?
    ensures HandlerOk(ist, owner[i := o])
  {
    CountUpdate(owner, i, o, KHandling);
  }

  lemma FlightUntouched(published: seq<Ticket>, stage: seq<Stage>, collected: nat, owner: seq<Owner>, i: nat, o: Owner)
    requires FlightOk(published, stage, collected, owner) && i < |owner| && !owner[i].InFlight? && !o.InFlight?
    ensures FlightOk(published, stage, collected, owner[i := o])
  {
    CountUpdate(owner, i, o, KInFlight);
  }

  /** Chains in flight are few: two descriptors each, and the table is shared with everyone else. */
  lemma FlightBound(published: seq<Ticket>, stage: seq<Stage>, collected: nat, owner: seq<Owner>)
    requires FlightOk(published, stage, collected, owner)
    ensures 2 * (|published| - collected) ==
            |owner| - Count(owner, KFree) - Count(owner, KBuilding) - Count(owner, KHandling)
    ensures 2 * (|published| - collected) <= |owner|
  {
    CountTotal(owner);
  }

  // ----- Memory -----

  /** Nothing about descriptor `i` or its buffer has changed. */
  ghost predicate SameAt(m: Memory, m': Memory, i: nat) {
    && i < |m.desc| && i < |m.extras| && i < |m'.desc| && i < |m'.extras|
    && m'.desc[i] == m.desc[i] && m'.extras[i] == m.extras[i]
    && (Bound(m, i) ==> Bound(m', i) && m'.mem[m.extras[i].vaddr] == m.mem[m.extras[i].vaddr])
    && (NoBuffer(m, i) ==> NoBuffer(m', i))
  }

  /** Only descriptors owned by `who`, and their buffers, may have changed. */
  ghost predicate OnlyTouches(m: Memory, m': Memory, owner: seq<Owner>, who: Owner) {
    forall i: nat :: i < |owner| && owner[i] != who ==> SameAt(m, m', i)
  }

  /** The buffers that callers other than `c` hold but have not recorded yet are still theirs. */
  ghost predicate KeepsLoose(m: Memory, m': Memory, c: nat) {
    forall b: nat :: b in m.holder && m.holder[b].AtCaller? && m.holder[b].c != c ==>
          b in m'.holder && m'.holder[b] == m.holder[b]
  }

  ghost predicate KeepsAllLoose(m: Memory, m': Memory) {
    forall b: nat :: b in m.holder && m.holder[b].AtCaller? ==> b in m'.holder && m'.holder[b] == m.holder[b]
  }

  lemma CallerMemKept(m: Memory, m': Memory, c: nat, pc: Caller)
    requires CallerMem(m, c, pc)
    requires forall i: nat :: i in Held(pc) ==> SameAt(m, m', i)
    requires pc.FillIn? && m.holder[pc.b] == AtCaller(c) ==> pc.b in m'.holder && m'.holder[pc.b] == AtCaller(c)
    ensures CallerMem(m', c, pc)
  {
    hide Bound, NoBuffer;
    match pc
    case Take(_, Some(i0)) => assert i0 in Held(pc);
    case MapIn(_, None, i) => assert i in Held(pc);
    case MapIn(_, Some(i0), i) => assert i0 in Held(pc) && i in Held(pc);
    case FillIn(_, None, i, _) => assert i in Held(pc);
    case FillIn(_, Some(i0), i, _) => assert i0 in Held(pc) && i in Held(pc);
    case Write(_, i0, i1) => assert i0 in Held(pc) && i1 in Held(pc);
    case Tag(_, i0, i1) => assert i0 in Held(pc) && i1 in Held(pc);
    case Link(_, i0, i1) => assert i0 in Held(pc) && i1 in Held(pc);
    case Ring(_, i0, i1) => assert i0 in Held(pc) && i1 in Held(pc);
    case Bump(_, i0, i1) => assert i0 in Held(pc) && i1 in Held(pc);
    case Undo(i, _, _) => assert i in Held(pc);
    case _ =>
  }

  lemma TicketMemKept(m: Memory, m': Memory, t: Ticket, p: nat, served: map<nat, Served>)
    requires TicketMem(m, t, p, served) && SameAt(m, m', t.head) && SameAt(m, m', t.tail)
    ensures TicketMem(m', t, p, served)
  {
    hide Bound, NoBuffer;
  }

  lemma HandlerMemKept(m: Memory, m': Memory, ist: Ist, published: seq<Ticket>, served: map<nat, Served>)
    requires HandlerMem(m, ist, published, served)
    requires forall i: nat :: i in HeldByHandler(ist) ==> SameAt(m, m', i)
    ensures HandlerMem(m', ist, published, served)
  {
    hide Bound, NoBuffer, TicketMem;
    match ist
    case Found(i0, i1, p) => TicketMemKept(m, m', published[p], p, served);
    case CopyValue(i0, i1, _, p) => TicketMemKept(m, m', published[p], p, served);
    case Post(i0, i1, _, p) => TicketMemKept(m, m', published[p], p, served);
    case Freeing(i, _, None) => assert i in HeldByHandler(ist);
    case Freeing(i, _, Some(i1)) => assert i in HeldByHandler(ist) && i1 in HeldByHandler(ist);
    case _ =>
  }

  lemma CallersMemKept(m: Memory, m': Memory, callers: seq<Caller>, owner: seq<Owner>, who: Owner)
    requires CallersMem(m, callers) && CallersOk(callers, owner)
    requires OnlyTouches(m, m', owner, who) && !who.Building? && KeepsAllLoose(m, m')
    ensures CallersMem(m', callers)
  {
    hide SameAt, CallerMem;
    forall c: nat | c < |callers| ensures CallerMem(m', c, callers[c]) {
      forall i: nat | i in Held(callers[c]) ensures SameAt(m, m', i) {
        assert owner[i] == Building(c);
      }
      LooseBuffer(m, c, callers[c]);
      CallerMemKept(m, m', c, callers[c]);
    }
  }

  lemma LooseBuffer(m: Memory, c: nat, pc: Caller)
    requires CallerMem(m, c, pc)
    ensures pc.FillIn? ==> pc.b in m.holder && m.holder[pc.b] == AtCaller(c)
  {
  }

  lemma OtherCallersMem(m: Memory, m': Memory, callers: seq<Caller>, owner: seq<Owner>, c: nat, pc: Caller)
    requires CallersMem(m, callers) && CallersOk(callers, owner) && c < |callers|
    requires OnlyTouches(m, m', owner, Building(c)) && KeepsLoose(m, m', c)
    requires CallerMem(m', c, pc)
    ensures CallersMem(m', callers[c := pc])
  {
    hide SameAt, CallerMem;
    forall d: nat | d < |callers| && d != c ensures CallerMem(m', d, callers[d]) {
      forall i: nat | i in Held(callers[d]) ensures SameAt(m, m', i) {
        assert owner[i] == Building(d);
      }
      LooseBuffer(m, d, callers[d]);
      CallerMemKept(m, m', d, callers[d]);
    }
  }

  lemma TicketsMemKept(m: Memory, m': Memory, published: seq<Ticket>, stage: seq<Stage>, collected: nat,
                       served: map<nat, Served>, owner: seq<Owner>, who: Owner)
    requires TicketsMem(m, published, stage, served) && FlightOk(published, stage, collected, owner)
    requires OnlyTouches(m, m', owner, who) && !who.InFlight?
    ensures TicketsMem(m', published, stage, served)
  {
    hide SameAt, TicketMem;
    forall p: nat | p < |published| && Outstanding(stage, p) ensures TicketMem(m', published[p], p, served) {
      assert owner[published[p].head] == InFlight(p) && owner[published[p].tail] == InFlight(p);
      TicketMemKept(m, m', published[p], p, served);
    }
  }

  lemma HandlerMemOther(m: Memory, m': Memory, ist: Ist, published: seq<Ticket>, served: map<nat, Served>,
                        owner: seq<Owner>, who: Owner)
    requires HandlerMem(m, ist, published, served) && HandlerOk(ist, owner)
    requires OnlyTouches(m, m', owner, who) && who != Handling
    ensures HandlerMem(m', ist, published, served)
  {
    hide SameAt, HandlerMem;
    forall i: nat | i in HeldByHandler(ist) ensures SameAt(m, m', i) {
      assert owner[i] == Handling;
    }
    HandlerMemKept(m, m', ist, published, served);
  }

  /** A memory change by caller `c`, which ends at `pc`. */
  lemma MemByCaller(m: Memory, m': Memory, s: State, c: nat, pc: Caller)
    requires m == MemoryOf(s) && At(s, c)
    requires CallersOk(s.callers, s.h.owner) && HandlerOk(s.ist, s.h.owner)
    requires FlightOk(s.h.published, s.h.stage, s.h.collected, s.h.owner)
    requires CallersMem(m, s.callers) && TicketsMem(m, s.h.published, s.h.stage, s.h.served)
    requires HandlerMem(m, s.ist, s.h.published, s.h.served)
    requires OnlyTouches(m, m', s.h.owner, Building(c)) && KeepsLoose(m, m', c) && CallerMem(m', c, pc)
    ensures CallersMem(m', s.callers[c := pc])
    ensures TicketsMem(m', s.h.published, s.h.stage, s.h.served)
    ensures HandlerMem(m', s.ist, s.h.published, s.h.served)
  {
    hide CallersOk, HandlerOk, FlightOk, CallersMem, TicketsMem, HandlerMem, OnlyTouches, KeepsLoose, CallerMem;
    OtherCallersMem(m, m', s.callers, s.h.owner, c, pc);
    TicketsMemKept(m, m', s.h.published, s.h.stage, s.h.collected, s.h.served, s.h.owner, Building(c));
    HandlerMemOther(m, m', s.ist, s.h.published, s.h.served, s.h.owner, Building(c));
  }

  /** A memory change by the handler. */
  lemma MemByHandler(m: Memory, m': Memory, s: State)
    requires m == MemoryOf(s)
    requires CallersOk(s.callers, s.h.owner)
    requires FlightOk(s.h.published, s.h.stage, s.h.collected, s.h.owner)
    requires CallersMem(m, s.callers) && TicketsMem(m, s.h.published, s.h.stage, s.h.served)
    requires OnlyTouches(m, m', s.h.owner, Handling) && KeepsAllLoose(m, m')
    ensures CallersMem(m', s.callers)
    ensures TicketsMem(m', s.h.published, s.h.stage, s.h.served)
  {
    hide CallersOk, FlightOk, CallersMem, TicketsMem, OnlyTouches, KeepsAllLoose;
    CallersMemKept(m, m', s.callers, s.h.owner, Handling);
    TicketsMemKept(m, m', s.h.published, s.h.stage, s.h.collected, s.h.served, s.h.owner, Handling);
  }

  /** A cleared table entry records no buffer. */
  lemma ZeroHasNoBuffer(m: Memory, callers: seq<Caller>, i: nat)
    requires HolderOk(m, callers) && Zero(m, i)
    ensures NoBuffer(m, i)
  {
  }

  // ----- Program counters -----

  /** In a call, before its chain is published or while it is being undone. */
  predicate InBuild(pc: Caller) {
    !pc.Idle? && !pc.Notify? && !pc.Wait?
  }

  lemma BumpKept(num: nat, ring: seq<nat>, count: nat, callers: seq<Caller>, lock: Option<nat>, c: nat, pc: Caller)
    requires BumpOk(num, ring, count, callers, lock) && c < |callers| && !callers[c].Bump? && !pc.Bump?
    ensures BumpOk(num, ring, count, callers[c := pc], lock)
  {
  }

  lemma KickKept(awake: bool, taken: nat, published: seq<Ticket>, callers: seq<Caller>, c: nat, pc: Caller)
    requires KickOk(awake, taken, published, callers) && c < |callers| && !callers[c].Notify?
    ensures KickOk(awake, taken, published, callers[c := pc])
  {
  }

  lemma HolderKept(m: Memory, callers: seq<Caller>, c: nat, pc: Caller)
    requires HolderOk(m, callers) && c < |callers| && !callers[c].FillIn?
    ensures HolderOk(m, callers[c := pc])
  {
  }

  lemma BuilderKeepsContexts(callers: seq<Caller>, contexts: map<nat, Context>, published: seq<Ticket>,
                             stage: seq<Stage>, served: map<nat, Served>, ist: Ist, c: nat, pc: Caller)
    requires ContextsOk(callers, contexts, published, stage, served, ist)
    requires c < |callers| && InBuild(callers[c]) && InBuild(pc)
    ensures ContextsOk(callers[c := pc], contexts, published, stage, served, ist)
  {
  }

  /** The context being filled belongs to a caller that is waiting for it. */
  lemma HandlerServesWaiter(s: State)
    requires ContextsOk(s.callers, s.contexts, s.h.published, s.h.stage, s.h.served, s.ist)
    requires HandlerMem(MemoryOf(s), s.ist, s.h.published, s.h.served)
    requires s.ist.CopyValue? || s.ist.Post?
    ensures s.ist.c < |s.callers| && Pending(s.callers[s.ist.c], s.ist.p)
  {
    hide TicketMem;
    assert !Settled(s.h.stage, s.ist, s.ist.p);
  }

  /** A caller that is not waiting may start or drop its context without disturbing the handler. */
  lemma HandOverKept(s: State, c: nat, contexts: map<nat, Context>)
    requires ContextsOk(s.callers, s.contexts, s.h.published, s.h.stage, s.h.served, s.ist)
    requires HandlerMem(MemoryOf(s), s.ist, s.h.published, s.h.served)
    requires HandOverOk(s.ist, s.contexts, s.h.stage, s.h.completed, s.h.collected, s.h.served, s.h.delivered)
    requires At(s, c) && !s.callers[c].Notify? && !s.callers[c].Wait?
    requires forall d: nat :: d in s.contexts && d != c ==> d in contexts && contexts[d] == s.contexts[d]
    ensures HandOverOk(s.ist, contexts, s.h.stage, s.h.completed, s.h.collected, s.h.served, s.h.delivered)
  {
    hide ContextsOk, HandlerMem;
    if s.ist.CopyValue? || s.ist.Post? {
      HandlerServesWaiter(s);
    }
  }

  // ----- What the invariant says about the queue alone -----

  /** The queue has its shape and every link and pending used element names a descriptor of the table. */
  lemma InvShape(s: State)
    requires Inv(s)
    ensures ShapeOk(s.vq) && LinksOk(s.vq.desc)
    ensures |s.h.owner| == s.vq.num && |s.h.stage| == |s.h.published|
    ensures s.vq.availIdx == |s.h.published| % WORD
    ensures s.vq.usedIdx == |s.h.completed| % WORD && s.vq.lastSeen == s.h.collected % WORD
  {
    hide FreeOk, CallersOk, HandlerOk, StageOk, ServedOk, BumpOk, HolderOk;
    hide CallersMem, TicketsMem, HandlerMem, ContextsOk, HandOverOk, KickOk;
  }
}
