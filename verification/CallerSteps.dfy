/** Every step a caller takes keeps the invariant. */
module CallerSteps {
  import opened Words
  import opened VirtqSpec
  import opened Protocol
  import opened Invariant
  import opened Frames

  /** A call ends while its caller holds no descriptor. */
  lemma LeaveInv(s: State, c: nat, err: Errno)
    requires At(s, c) && InBuild(s.callers[c]) && Held(s.callers[c]) == {}
    requires Inv(s)
    ensures Inv(Leave(s, c, Failed(err)))
  {
    hide FreeOk, CallersOk, HandlerOk, FlightOk, StageOk, ServedOk, AvailOk, BumpOk, UsedOk, HolderOk;
    hide CallersMem, TicketsMem, HandlerMem, ContextsOk, HandOverOk, KickOk, CallerMem;
    var pc := Idle(Failed(err));
    CallerStays(s.callers, s.h.owner, c, pc);
    assert !s.callers[c].FillIn? && !s.callers[c].Bump?;
    BumpKept(s.vq.num, s.vq.availRing, |s.h.published|, s.callers, s.lock, c, pc);
    KickKept(s.dev.awake, s.dev.taken, s.h.published, s.callers, c, pc);
    HolderKept(MemoryOf(s), s.callers, c, pc);
    IdleMem(MemoryOf(s), s.callers, c, Failed(err));
    HandOverKept(s, c, s.contexts - {c});
    LeaveContexts(s, c, err);
  }

  lemma IdleMem(m: Memory, callers: seq<Caller>, c: nat, last: Outcome)
    requires CallersMem(m, callers) && c < |callers|
    ensures CallersMem(m, callers[c := Idle(last)])
  {
  }

  lemma LeaveContexts(s: State, c: nat, err: Errno)
    requires ContextsOk(s.callers, s.contexts, s.h.published, s.h.stage, s.h.served, s.ist)
    requires At(s, c) && InBuild(s.callers[c])
    ensures ContextsOk(s.callers[c := Idle(Failed(err))], s.contexts - {c}, s.h.published, s.h.stage, s.h.served, s.ist)
  {
  }

  /** A caller moves on within its call; it keeps its descriptors and touches no shared state. */
  lemma BuilderMoves(s: State, c: nat, pc: Caller)
    requires At(s, c) && InBuild(s.callers[c]) && InBuild(pc)
    requires !s.callers[c].Bump? && !pc.Bump? && !s.callers[c].FillIn?
    requires Held(pc) == Held(s.callers[c]) && PairDistinct(pc)
    requires CallerMem(MemoryOf(s), c, pc)
    requires Inv(s)
    ensures Inv(Goto(s, c, pc))
  {
    hide FreeOk, CallersOk, HandlerOk, FlightOk, StageOk, ServedOk, AvailOk, BumpOk, UsedOk, HolderOk;
    hide CallersMem, TicketsMem, HandlerMem, ContextsOk, HandOverOk, KickOk, CallerMem;
    CallerStays(s.callers, s.h.owner, c, pc);
    BumpKept(s.vq.num, s.vq.availRing, |s.h.published|, s.callers, s.lock, c, pc);
    KickKept(s.dev.awake, s.dev.taken, s.h.published, s.callers, c, pc);
    HolderKept(MemoryOf(s), s.callers, c, pc);
    PlaceMem(MemoryOf(s), s.callers, c, pc);
    BuilderKeepsContexts(s.callers, s.contexts, s.h.published, s.h.stage, s.h.served, s.ist, c, pc);
  }

  lemma PlaceMem(m: Memory, callers: seq<Caller>, c: nat, pc: Caller)
    requires CallersMem(m, callers) && c < |callers| && CallerMem(m, c, pc)
    ensures CallersMem(m, callers[c := pc])
  {
    hide CallerMem;
  }

  lemma BeginInv(s: State, c: nat, req: Buffer)
    requires Enabled(s, SBegin(c, req))
    requires Inv(s)
    ensures Inv(Begin(s, c, req))
  {
    hide FreeOk, CallersOk, HandlerOk, FlightOk, StageOk, ServedOk, AvailOk, BumpOk, UsedOk, HolderOk;
    hide CallersMem, TicketsMem, HandlerMem, ContextsOk, HandOverOk, KickOk, CallerMem;
    var pc := Take(req, None);
    var contexts := s.contexts[c := Context(0, 0, 0)];
    CallerStays(s.callers, s.h.owner, c, pc);
    BumpKept(s.vq.num, s.vq.availRing, |s.h.published|, s.callers, s.lock, c, pc);
    KickKept(s.dev.awake, s.dev.taken, s.h.published, s.callers, c, pc);
    HolderKept(MemoryOf(s), s.callers, c, pc);
    StartMem(MemoryOf(s), c, req);
    PlaceMem(MemoryOf(s), s.callers, c, pc);
    HandOverKept(s, c, contexts);
    BeginContexts(s, c, req);
  }

  lemma StartMem(m: Memory, c: nat, req: Buffer)
    ensures CallerMem(m, c, Take(req, None))
  {
  }

  lemma BeginContexts(s: State, c: nat, req: Buffer)
    requires ContextsOk(s.callers, s.contexts, s.h.published, s.h.stage, s.h.served, s.ist)
    requires At(s, c) && s.callers[c].Idle?
    ensures ContextsOk(s.callers[c := Take(req, None)], s.contexts[c := Context(0, 0, 0)], s.h.published, s.h.stage,
            s.h.served, s.ist)
  {
  }

  /** Giving up with no descriptor in hand but the first one. */
  lemma GiveUpInv(s: State, c: nat, err: Errno)
    requires At(s, c) && s.callers[c].Take?
    requires Inv(s)
    ensures Inv(GiveUp(s, c, s.callers[c].first, err))
  {
    hide Inv;
    match s.callers[c].first
    case None => LeaveInv(s, c, err);
    case Some(i0) =>
      UndoStartMem(s, c, i0, err);
      BuilderMoves(s, c, Undo(i0, Unmap, err));
  }

  lemma UndoStartMem(s: State, c: nat, i0: nat, err: Errno)
    requires At(s, c) && s.callers[c].Take? && s.callers[c].first == Some(i0)
    requires Inv(s)
    ensures CallerMem(MemoryOf(s), c, Undo(i0, Unmap, err))
  {
    hide FreeOk, CallersOk, HandlerOk, FlightOk, StageOk, ServedOk, AvailOk, BumpOk, UsedOk, HolderOk;
    hide TicketsMem, HandlerMem, ContextsOk, HandOverOk, KickOk, Bound;
    assert CallerMem(MemoryOf(s), c, s.callers[c]);
  }

  lemma TakeInv(s: State, c: nat)
    requires Enabled(s, STake(c))
    requires Inv(s)
    ensures Inv(TakeDesc(s, c))
  {
    if s.vq.free == [] {
      hide Inv;
      GiveUpInv(s, c, ENOENT);
    } else {
      TakeDescInv(s, c);
    }
  }

  lemma TakeDescInv(s: State, c: nat)
    requires Enabled(s, STake(c)) && s.vq.free != []
    requires Inv(s)
    ensures Inv(TakeDesc(s, c))
  {
    hide FreeOk, CallersOk, HandlerOk, FlightOk, StageOk, ServedOk, AvailOk, BumpOk, UsedOk, HolderOk;
    hide CallersMem, TicketsMem, HandlerMem, ContextsOk, HandOverOk, KickOk, CallerMem;
    var i, first := s.vq.free[0], s.callers[c].first;
    var pc := MapIn(s.callers[c].req, first, i);
    FreeTaken(s.vq.free, s.h.owner, s.vq.desc, s.vq.extras, Building(c));
    HeldNotFree(s, c);
    TakenCallers(s, c, i);
    HandlerUntouched(s.ist, s.h.owner, i, Building(c));
    FlightUntouched(s.h.published, s.h.stage, s.h.collected, s.h.owner, i, Building(c));
    BumpKept(s.vq.num, s.vq.availRing, |s.h.published|, s.callers, s.lock, c, pc);
    KickKept(s.dev.awake, s.dev.taken, s.h.published, s.callers, c, pc);
    HolderKept(MemoryOf(s), s.callers, c, pc);
    TakenMem(s, c, i);
    PlaceMem(MemoryOf(s), s.callers, c, pc);
    BuilderKeepsContexts(s.callers, s.contexts, s.h.published, s.h.stage, s.h.served, s.ist, c, pc);
  }

  lemma HeldNotFree(s: State, c: nat)
    requires CallersOk(s.callers, s.h.owner) && At(s, c)
    ensures forall i: nat :: i in Held(s.callers[c]) ==> i < |s.h.owner| && s.h.owner[i] == Building(c)
    ensures forall i: nat :: i < |s.h.owner| && s.h.owner[i] == Building(c) ==> i in Held(s.callers[c])
  {
  }

  lemma TakenCallers(s: State, c: nat, i: nat)
    requires CallersOk(s.callers, s.h.owner) && At(s, c) && s.callers[c].Take?
    requires i < |s.h.owner| && s.h.owner[i].Free?
    ensures CallersOk(s.callers[c := MapIn(s.callers[c].req, s.callers[c].first, i)], s.h.owner[i := Building(c)])
  {
    HeldNotFree(s, c);
    hide CallersOk;
    CallerMoves(s.callers, s.h.owner, c, MapIn(s.callers[c].req, s.callers[c].first, i), s.h.owner[i := Building(c)]);
  }

  lemma TakenMem(s: State, c: nat, i: nat)
    requires CallersMem(MemoryOf(s), s.callers) && HolderOk(MemoryOf(s), s.callers)
    requires FreeOk(s.vq.free, s.h.owner, s.vq.desc, s.vq.extras)
    requires At(s, c) && s.callers[c].Take? && i < |s.h.owner| && s.h.owner[i].Free?
    ensures CallerMem(MemoryOf(s), c, MapIn(s.callers[c].req, s.callers[c].first, i))
  {
    hide HolderOk, NoBuffer, FilledIn;
    assert CallerMem(MemoryOf(s), c, s.callers[c]);
    ZeroHasNoBuffer(MemoryOf(s), s.callers, i);
  }

  // ----- Steps that change the table or the buffers -----

  /** The state after caller `c` reached `pc` having changed memory to `m`. */
  ghost function Touched(s: State, c: nat, pc: Caller, m: Memory): State
    requires At(s, c)
  {
    Goto(s, c, pc).(vq := s.vq.(desc := m.desc, extras := m.extras, mem := m.mem), h := s.h.(holder := m.holder))
  }

  lemma BuilderTouches(s: State, c: nat, pc: Caller, m: Memory)
    requires At(s, c) && InBuild(s.callers[c]) && InBuild(pc)
    requires !s.callers[c].Bump? && !pc.Bump? && Held(pc) == Held(s.callers[c]) && PairDistinct(pc)
    requires |m.desc| == |m.extras| == s.vq.num && LinksOk(m.desc)
    requires OnlyTouches(MemoryOf(s), m, s.h.owner, Building(c)) && KeepsLoose(MemoryOf(s), m, c)
    requires HolderOk(m, s.callers[c := pc]) && CallerMem(m, c, pc)
    requires Inv(s)
    ensures Inv(Touched(s, c, pc, m))
  {
    hide FreeOk, CallersOk, HandlerOk, FlightOk, StageOk, ServedOk, AvailOk, BumpOk, UsedOk, HolderOk;
    hide CallersMem, TicketsMem, HandlerMem, ContextsOk, HandOverOk, KickOk, CallerMem;
    CallerStays(s.callers, s.h.owner, c, pc);
    BumpKept(s.vq.num, s.vq.availRing, |s.h.published|, s.callers, s.lock, c, pc);
    KickKept(s.dev.awake, s.dev.taken, s.h.published, s.callers, c, pc);
    MemByCaller(MemoryOf(s), m, s, c, pc);
    TouchesNoFree(s, c, m);
    FreeUntouched(s.vq.free, s.h.owner, s.vq.desc, s.vq.extras, m.desc, m.extras);
    BuilderKeepsContexts(s.callers, s.contexts, s.h.published, s.h.stage, s.h.served, s.ist, c, pc);
    assert MemoryOf(Touched(s, c, pc, m)) == m;
  }

  lemma TouchesNoFree(s: State, c: nat, m: Memory)
    requires OnlyTouches(MemoryOf(s), m, s.h.owner, Building(c))
    requires |s.h.owner| == |s.vq.desc| == |s.vq.extras| == |m.desc| == |m.extras|
    ensures forall i: nat :: i < |s.h.owner| && s.h.owner[i].Free? ==>
              m.desc[i] == s.vq.desc[i] && m.extras[i] == s.vq.extras[i]
  {
    hide Bound, NoBuffer;
    forall i: nat | i < |s.h.owner| && s.h.owner[i].Free? ensures m.desc[i] == s.vq.desc[i]
        && m.extras[i] == s.vq.extras[i] {
      assert SameAt(MemoryOf(s), m, i);
    }
  }

  lemma MapInv(s: State, c: nat, b: nat)
    requires Enabled(s, SMap(c, b))
    requires Inv(s)
    ensures Inv(MapDesc(s, c, b))
  {
    hide FreeOk, CallersOk, HandlerOk, FlightOk, StageOk, ServedOk, AvailOk, BumpOk, UsedOk, HolderOk;
    hide CallersMem, TicketsMem, HandlerMem, ContextsOk, HandOverOk, KickOk, CallerMem;
    hide Inv;
    var pc := s.callers[c];
    var m := MemoryOf(MapDesc(s, c, b));
    UnpackCaller(s, c);
    MapMem(MemoryOf(s), m, s.callers, s.h.owner, c, b);
    BuilderTouches(s, c, FillIn(pc.req, pc.first, pc.i, b), m);
  }

  /** What the invariant says of one caller, in the form the memory lemmas take. */
  lemma UnpackCaller(s: State, c: nat)
    requires At(s, c)
    requires Inv(s)
    ensures |s.vq.desc| == |s.vq.extras| == |s.h.owner| == s.vq.num && LinksOk(s.vq.desc)
    ensures HolderOk(MemoryOf(s), s.callers) && CallerMem(MemoryOf(s), c, s.callers[c]) && PairDistinct(s.callers[c])
    ensures forall i: nat :: i in Held(s.callers[c]) ==> i < |s.h.owner| && s.h.owner[i] == Building(c)
  {
    hide FreeOk, HandlerOk, FlightOk, StageOk, ServedOk, AvailOk, BumpOk, UsedOk, HolderOk;
    hide TicketsMem, HandlerMem, ContextsOk, HandOverOk, KickOk, CallerMem;
  }

  lemma MapMem(m: Memory, m': Memory, callers: seq<Caller>, owner: seq<Owner>, c: nat, b: nat)
    requires HolderOk(m, callers) && c < |callers| && callers[c].MapIn? && b != 0 && b !in m.mem
    requires |owner| == |m.desc| == |m.extras| && CallerMem(m, c, callers[c])
    requires m' == m.(mem := m.mem[b := Blank], holder := m.holder[b := AtCaller(c)])
    ensures OnlyTouches(m, m', owner, Building(c)) && KeepsLoose(m, m', c)
    ensures HolderOk(m', callers[c := FillIn(callers[c].req, callers[c].first, callers[c].i, b)])
    ensures CallerMem(m', c, FillIn(callers[c].req, callers[c].first, callers[c].i, b))
  {
  }

  lemma FillInv(s: State, c: nat)
    requires Enabled(s, SFill(c))
    requires Inv(s)
    ensures Inv(Fill(s, c))
  {
    hide FreeOk, CallersOk, HandlerOk, FlightOk, StageOk, ServedOk, AvailOk, BumpOk, UsedOk, HolderOk;
    hide CallersMem, TicketsMem, HandlerMem, ContextsOk, HandOverOk, KickOk, CallerMem;
    hide Inv;
    var pc := s.callers[c];
    UnpackCaller(s, c);
    assert pc.i in Held(pc);
    var s' := Fill(s, c);
    FillMem(MemoryOf(s), MemoryOf(s'), s.callers, s.h.owner, c, s'.callers[c]);
    BuilderTouches(s, c, s'.callers[c], MemoryOf(s'));
    assert s' == Touched(s, c, s'.callers[c], MemoryOf(s'));
  }

  lemma FillMem(m: Memory, m': Memory, callers: seq<Caller>, owner: seq<Owner>, c: nat, pc': Caller)
    requires HolderOk(m, callers) && c < |callers| && callers[c].FillIn?
    requires |owner| == |m.desc| == |m.extras| && CallerMem(m, c, callers[c]) && PairDistinct(callers[c])
    requires callers[c].i < |owner| && owner[callers[c].i] == Building(c)
    requires var pc := callers[c]; var i := pc.i; var b := pc.b;
             && m'.mem == m.mem && m'.holder == m.holder[b := AtDesc(i)]
             && m'.extras == m.extras[i := Extra(b, None)]
             && |m'.desc| == |m.desc|
             && m'.desc == m.desc[i := m'.desc[i]]
             && m'.desc[i].addr == b && m'.desc[i].flags == (if pc.first.Some? then F_WRITE else 0)
             && m'.desc[i].len == (if pc.first.Some? then RESPONSE_SIZE else REQUEST_SIZE)
             && pc' == (match pc.first case None => Take(pc.req, Some(i)) case Some(i0) => Write(pc.req, i0, i))
    ensures OnlyTouches(m, m', owner, Building(c)) && KeepsLoose(m, m', c)
    ensures HolderOk(m', callers[c := pc'])
    ensures CallerMem(m', c, pc')
  {
    FlagFacts(0);
  }

  lemma WriteInv(s: State, c: nat)
    requires Enabled(s, SWrite(c))
    requires Inv(s)
    ensures Inv(WriteRequest(s, c))
  {
    hide FreeOk, CallersOk, HandlerOk, FlightOk, StageOk, ServedOk, AvailOk, BumpOk, UsedOk, HolderOk;
    hide CallersMem, TicketsMem, HandlerMem, ContextsOk, HandOverOk, KickOk, CallerMem;
    hide Inv;
    var pc := s.callers[c];
    UnpackCaller(s, c);
    assert pc.i0 in Held(pc);
    var m := MemoryOf(s);
    var m' := m.(mem := m.mem[m.extras[pc.i0].vaddr := pc.req]);
    WriteMem(m, m', s.callers, s.h.owner, c);
    BuilderTouches(s, c, Tag(pc.req, pc.i0, pc.i1), m');
  }

  lemma WriteMem(m: Memory, m': Memory, callers: seq<Caller>, owner: seq<Owner>, c: nat)
    requires HolderOk(m, callers) && c < |callers| && callers[c].Write?
    requires |owner| == |m.desc| == |m.extras| && CallerMem(m, c, callers[c]) && PairDistinct(callers[c])
    requires var i := callers[c].i0; i < |owner| && owner[i] == Building(c)
    requires m' == m.(mem := m.mem[m.extras[callers[c].i0].vaddr := callers[c].req])
    ensures m.extras[callers[c].i0].vaddr in m.mem
    ensures OnlyTouches(m, m', owner, Building(c)) && KeepsLoose(m, m', c)
    ensures HolderOk(m', callers[c := Tag(callers[c].req, callers[c].i0, callers[c].i1)])
    ensures CallerMem(m', c, Tag(callers[c].req, callers[c].i0, callers[c].i1))
  {
  }

  lemma TagInv(s: State, c: nat)
    requires Enabled(s, STag(c))
    requires Inv(s)
    ensures Inv(TagContext(s, c))
  {
    hide FreeOk, CallersOk, HandlerOk, FlightOk, StageOk, ServedOk, AvailOk, BumpOk, UsedOk, HolderOk;
    hide CallersMem, TicketsMem, HandlerMem, ContextsOk, HandOverOk, KickOk, CallerMem;
    hide Inv;
    var pc := s.callers[c];
    UnpackCaller(s, c);
    assert pc.i0 in Held(pc);
    var m := MemoryOf(s);
    var m' := m.(extras := m.extras[pc.i0 := m.extras[pc.i0].(context := Some(c))]);
    TagMem(m, m', s.callers, s.h.owner, c);
    BuilderTouches(s, c, Link(pc.req, pc.i0, pc.i1), m');
  }

  lemma TagMem(m: Memory, m': Memory, callers: seq<Caller>, owner: seq<Owner>, c: nat)
    requires HolderOk(m, callers) && c < |callers| && callers[c].Tag?
    requires |owner| == |m.desc| == |m.extras| && CallerMem(m, c, callers[c]) && PairDistinct(callers[c])
    requires var i := callers[c].i0; i < |owner| && owner[i] == Building(c)
    requires m' == m.(extras := m.extras[callers[c].i0 := m.extras[callers[c].i0].(context := Some(c))])
    ensures OnlyTouches(m, m', owner, Building(c)) && KeepsLoose(m, m', c)
    ensures HolderOk(m', callers[c := Link(callers[c].req, callers[c].i0, callers[c].i1)])
    ensures CallerMem(m', c, Link(callers[c].req, callers[c].i0, callers[c].i1))
  {
  }

  lemma LinkInv(s: State, c: nat)
    requires Enabled(s, SLink(c))
    requires Inv(s)
    ensures Inv(LinkPair(s, c))
  {
    hide FreeOk, CallersOk, HandlerOk, FlightOk, StageOk, ServedOk, AvailOk, BumpOk, UsedOk, HolderOk;
    hide CallersMem, TicketsMem, HandlerMem, ContextsOk, HandOverOk, KickOk, CallerMem;
    hide Inv;
    var pc := s.callers[c];
    UnpackCaller(s, c);
    assert pc.i0 in Held(pc) && pc.i1 in Held(pc);
    var m := MemoryOf(s);
    var m' := m.(desc := LinkChain(m.desc, [pc.i0, pc.i1]));
    LinkMem(m, m', s.callers, s.h.owner, c);
    BuilderTouches(s, c, Ring(pc.req, pc.i0, pc.i1), m');
  }

  /** The chaining loop on a pair: the first descriptor points at the second, the second ends the chain. */
  lemma LinkTwo(desc: seq<Desc>, i0: nat, i1: nat)
    requires i0 < |desc| && i1 < |desc| && i0 != i1
    ensures LinkChain(desc, [i0, i1]) ==
            desc[i0 := desc[i0].(next := i1, flags := desc[i0].flags | F_NEXT)][i1 := desc[i1].(next := 0)]
  {
    var ids := [i0, i1];
    assert LinkUpTo(desc, ids, 1) == desc;
    assert LinkUpTo(desc, ids, 2) == desc[i0 := desc[i0].(next := i1, flags := desc[i0].flags | F_NEXT)];
  }

  lemma LinkMem(m: Memory, m': Memory, callers: seq<Caller>, owner: seq<Owner>, c: nat)
    requires HolderOk(m, callers) && c < |callers| && callers[c].Link?
    requires |owner| == |m.desc| == |m.extras| && CallerMem(m, c, callers[c]) && PairDistinct(callers[c])
    requires LinksOk(m.desc)
    requires var i := callers[c].i0; i < |owner| && owner[i] == Building(c)
    requires var i := callers[c].i1; i < |owner| && owner[i] == Building(c)
    requires m' == m.(desc := LinkChain(m.desc, [callers[c].i0, callers[c].i1]))
    ensures OnlyTouches(m, m', owner, Building(c)) && KeepsLoose(m, m', c)
    ensures HolderOk(m', callers[c := Ring(callers[c].req, callers[c].i0, callers[c].i1)])
    ensures CallerMem(m', c, Ring(callers[c].req, callers[c].i0, callers[c].i1))
    ensures LinksOk(m'.desc) && |m'.desc| == |m.desc|
  {
    LinkTwo(m.desc, callers[c].i0, callers[c].i1);
    FlagFacts(m.desc[callers[c].i0].flags);
  }

  // ----- Giving descriptors back -----

  /** The state after caller `c` returned the blank descriptor `i` to the free list. */
  function GaveBack(s: State, c: nat, i: nat, pc: Caller): State
    requires At(s, c)
  {
    Goto(s, c, pc).(vq := ReturnFree(s.vq, i), h := Own(s.h, i, Free))
  }

  lemma GiveBackInv(s: State, c: nat, i: nat, pc: Caller)
    requires At(s, c) && InBuild(s.callers[c]) && InBuild(pc)
    requires !s.callers[c].Bump? && !pc.Bump? && !s.callers[c].FillIn?
    requires i in Held(s.callers[c]) && Held(pc) == Held(s.callers[c]) - {i} && PairDistinct(pc)
    requires Zero(MemoryOf(s), i) && CallerMem(MemoryOf(s), c, pc)
    requires Inv(s)
    ensures |s.vq.free| < s.vq.num
    ensures Inv(GaveBack(s, c, i, pc))
  {
    hide FreeOk, CallersOk, HandlerOk, FlightOk, StageOk, ServedOk, AvailOk, BumpOk, UsedOk, HolderOk;
    hide CallersMem, TicketsMem, HandlerMem, ContextsOk, HandOverOk, KickOk, CallerMem;
    hide Held, PairDistinct;
    HeldNotFree(s, c);
    FreeHasRoom(s.vq.free, s.h.owner, s.vq.desc, s.vq.extras, i);
    FreeGiven(s.vq.free, s.h.owner, s.vq.desc, s.vq.extras, i);
    CallerMoves(s.callers, s.h.owner, c, pc, s.h.owner[i := Free]);
    HandlerUntouched(s.ist, s.h.owner, i, Free);
    FlightUntouched(s.h.published, s.h.stage, s.h.collected, s.h.owner, i, Free);
    BumpKept(s.vq.num, s.vq.availRing, |s.h.published|, s.callers, s.lock, c, pc);
    KickKept(s.dev.awake, s.dev.taken, s.h.published, s.callers, c, pc);
    HolderKept(MemoryOf(s), s.callers, c, pc);
    PlaceMem(MemoryOf(s), s.callers, c, pc);
    BuilderKeepsContexts(s.callers, s.contexts, s.h.published, s.h.stage, s.h.served, s.ist, c, pc);
  }

  lemma MapFailInv(s: State, c: nat, err: Errno)
    requires Enabled(s, SMapFail(c, err))
    requires Inv(s)
    ensures Inv(MapFail(s, c, err))
  {
    hide FreeOk, CallersOk, HandlerOk, FlightOk, StageOk, ServedOk, AvailOk, BumpOk, UsedOk, HolderOk;
    hide CallersMem, TicketsMem, HandlerMem, ContextsOk, HandOverOk, KickOk, CallerMem;
    hide Inv;
    var pc := s.callers[c];
    var back := Take(pc.req, pc.first);
    UnpackCaller(s, c);
    MapFailMem(MemoryOf(s), c, pc);
    GiveBackInv(s, c, pc.i, back);
    var s1 := GaveBack(s, c, pc.i, back);
    GiveUpInv(s1, c, err);
    assert s1.callers[c] == back;
    GiveUpAgain(s, c, pc.i, back, err);
  }

  lemma MapFailMem(m: Memory, c: nat, pc: Caller)
    requires pc.MapIn? && CallerMem(m, c, pc) && PairDistinct(pc)
    ensures Zero(m, pc.i) && CallerMem(m, c, Take(pc.req, pc.first))
    ensures pc.i in Held(pc) && Held(Take(pc.req, pc.first)) == Held(pc) - {pc.i}
  {
  }

  lemma GiveUpAgain(s: State, c: nat, i: nat, back: Caller, err: Errno)
    requires At(s, c) && back.Take?
    ensures GiveUp(GaveBack(s, c, i, back), c, back.first, err) ==
            GiveUp(s.(vq := ReturnFree(s.vq, i), h := Own(s.h, i, Free)), c, back.first, err)
  {
    assert s.callers[c := back][c := Idle(Failed(err))] == s.callers[c := Idle(Failed(err))];
    if back.first.Some? {
      var pc := Undo(back.first.value, Unmap, err);
      assert s.callers[c := back][c := pc] == s.callers[c := pc];
    }
  }

  lemma UndoInv(s: State, c: nat)
    requires Enabled(s, SUndo(c))
    requires Inv(s)
    ensures Inv(UndoStep(s, c))
  {
    hide Inv;
    match s.callers[c].phase
    case Unmap => UndoUnmapInv(s, c);
    case Clear => UndoClearInv(s, c);
    case Give => UndoGiveInv(s, c);
  }

  lemma UndoUnmapInv(s: State, c: nat)
    requires Enabled(s, SUndo(c)) && s.callers[c].phase.Unmap?
    requires Inv(s)
    ensures Inv(UndoStep(s, c))
  {
    hide FreeOk, CallersOk, HandlerOk, FlightOk, StageOk, ServedOk, AvailOk, BumpOk, UsedOk, HolderOk;
    hide CallersMem, TicketsMem, HandlerMem, ContextsOk, HandOverOk, KickOk, CallerMem;
    hide Inv;
    var pc := s.callers[c];
    UnpackCaller(s, c);
    assert pc.i in Held(pc);
    var m := MemoryOf(s);
    var b := m.extras[pc.i].vaddr;
    var m' := m.(mem := m.mem - {b}, holder := m.holder - {b});
    UndoUnmapMem(m, m', s.callers, s.h.owner, c);
    BuilderTouches(s, c, Undo(pc.i, Clear, pc.err), m');
  }

  lemma UndoUnmapMem(m: Memory, m': Memory, callers: seq<Caller>, owner: seq<Owner>, c: nat)
    requires HolderOk(m, callers) && c < |callers| && callers[c].Undo? && callers[c].phase.Unmap?
    requires |owner| == |m.desc| == |m.extras| && CallerMem(m, c, callers[c])
    requires callers[c].i < |owner| && owner[callers[c].i] == Building(c)
    requires m' == m.(mem := m.mem - {m.extras[callers[c].i].vaddr},
             holder := m.holder - {m.extras[callers[c].i].vaddr})
    ensures m.extras[callers[c].i].vaddr in m.mem
    ensures OnlyTouches(m, m', owner, Building(c)) && KeepsLoose(m, m', c)
    ensures HolderOk(m', callers[c := Undo(callers[c].i, Clear, callers[c].err)])
    ensures CallerMem(m', c, Undo(callers[c].i, Clear, callers[c].err))
  {
  }

  lemma UndoClearInv(s: State, c: nat)
    requires Enabled(s, SUndo(c)) && s.callers[c].phase.Clear?
    requires Inv(s)
    ensures Inv(UndoStep(s, c))
  {
    hide FreeOk, CallersOk, HandlerOk, FlightOk, StageOk, ServedOk, AvailOk, BumpOk, UsedOk, HolderOk;
    hide CallersMem, TicketsMem, HandlerMem, ContextsOk, HandOverOk, KickOk, CallerMem;
    hide Inv;
    var pc := s.callers[c];
    UnpackCaller(s, c);
    assert pc.i in Held(pc);
    var m := MemoryOf(s);
    var m' := m.(desc := m.desc[pc.i := ZERO_DESC], extras := m.extras[pc.i := ZERO_EXTRA]);
    UndoClearMem(m, m', s.callers, s.h.owner, c);
    BuilderTouches(s, c, Undo(pc.i, Give, pc.err), m');
  }

  lemma UndoClearMem(m: Memory, m': Memory, callers: seq<Caller>, owner: seq<Owner>, c: nat)
    requires HolderOk(m, callers) && c < |callers| && callers[c].Undo? && callers[c].phase.Clear?
    requires |owner| == |m.desc| == |m.extras| && CallerMem(m, c, callers[c]) && LinksOk(m.desc)
    requires callers[c].i < |owner| && owner[callers[c].i] == Building(c)
    requires m' == m.(desc := m.desc[callers[c].i := ZERO_DESC], extras := m.extras[callers[c].i := ZERO_EXTRA])
    ensures OnlyTouches(m, m', owner, Building(c)) && KeepsLoose(m, m', c)
    ensures HolderOk(m', callers[c := Undo(callers[c].i, Give, callers[c].err)])
    ensures CallerMem(m', c, Undo(callers[c].i, Give, callers[c].err))
    ensures LinksOk(m'.desc)
  {
  }

  lemma UndoGiveInv(s: State, c: nat)
    requires Enabled(s, SUndo(c)) && s.callers[c].phase.Give?
    requires Inv(s)
    ensures Inv(UndoStep(s, c))
  {
    hide FreeOk, CallersOk, HandlerOk, FlightOk, StageOk, ServedOk, AvailOk, BumpOk, UsedOk, HolderOk;
    hide CallersMem, TicketsMem, HandlerMem, ContextsOk, HandOverOk, KickOk, CallerMem;
    hide Inv;
    var pc := s.callers[c];
    UnpackCaller(s, c);
    assert pc.i in Held(pc);
    var back := Take(Blank, None);
    UndoGiveMem(MemoryOf(s), c, pc);
    GiveBackInv(s, c, pc.i, back);
    var s1 := GaveBack(s, c, pc.i, back);
    assert s1.callers[c] == back;
    LeaveInv(s1, c, pc.err);
    GiveUpAgain(s, c, pc.i, back, pc.err);
  }

  lemma UndoGiveMem(m: Memory, c: nat, pc: Caller)
    requires pc.Undo? && pc.phase.Give? && CallerMem(m, c, pc)
    ensures Zero(m, pc.i) && CallerMem(m, c, Take(Blank, None))
    ensures Held(Take(Blank, None)) == Held(pc) - {pc.i}
  {
  }

  // ----- Publishing, notifying, returning -----

  lemma RingInv(s: State, c: nat)
    requires Enabled(s, SRing(c))
    requires Inv(s)
    ensures Inv(WriteRing(s, c))
  {
    hide FreeOk, CallersOk, HandlerOk, FlightOk, StageOk, ServedOk, AvailOk, BumpOk, UsedOk, HolderOk;
    hide CallersMem, TicketsMem, HandlerMem, ContextsOk, HandOverOk, KickOk, CallerMem;
    var pc := Bump(s.callers[c].req, s.callers[c].i0, s.callers[c].i1);
    UnpackCaller(s, c);
    InvShape(s);
    CallerStays(s.callers, s.h.owner, c, pc);
    RoomToPublish(s, c);
    SlotOfWrapped(|s.h.published|, s.vq.num);
    RingAvail(s, c);
    KickKept(s.dev.awake, s.dev.taken, s.h.published, s.callers, c, pc);
    HolderKept(MemoryOf(s), s.callers, c, pc);
    RingMem(MemoryOf(s), s.callers, c);
    PlaceMem(MemoryOf(s), s.callers, c, pc);
    BuilderKeepsContexts(s.callers, s.contexts, s.h.published, s.h.stage, s.h.served, s.ist, c, pc);
  }

  /** A caller about to publish holds two descriptors itself, so fewer than `num` chains can be outstanding. */
  lemma RoomToPublish(s: State, c: nat)
    requires FlightOk(s.h.published, s.h.stage, s.h.collected, s.h.owner) && CallersOk(s.callers, s.h.owner)
    requires StageOk(s.h.stage, s.dev, s.h.completed, s.h.collected)
    requires At(s, c) && (s.callers[c].Ring? || s.callers[c].Bump?) && |s.h.owner| == s.vq.num
    requires AvailOk(s.vq.num, s.vq.availIdx, s.vq.availRing, s.h.published, s.dev.taken)
    ensures s.dev.taken <= |s.h.published| < s.dev.taken + s.vq.num
    ensures 2 * (|s.h.published| - s.h.collected) + 2 <= s.vq.num
    ensures s.vq.availIdx == |s.h.published| % WORD
  {
    var i0, i1 := s.callers[c].i0, s.callers[c].i1;
    assert i0 in Held(s.callers[c]) && i1 in Held(s.callers[c]);
    CountTwo(s.h.owner, i0, i1, KBuilding);
    FlightBound(s.h.published, s.h.stage, s.h.collected, s.h.owner);
  }

  lemma RingAvail(s: State, c: nat)
    requires AvailOk(s.vq.num, s.vq.availIdx, s.vq.availRing, s.h.published, s.dev.taken)
    requires BumpOk(s.vq.num, s.vq.availRing, |s.h.published|, s.callers, s.lock)
    requires At(s, c) && s.callers[c].Ring? && s.lock.None?
    requires |s.h.published| < s.dev.taken + s.vq.num
    requires s.vq.availIdx % s.vq.num == |s.h.published| % s.vq.num
    ensures var ring := s.vq.availRing[s.vq.availIdx % s.vq.num := s.callers[c].i0];
            && AvailOk(s.vq.num, s.vq.availIdx, ring, s.h.published, s.dev.taken)
            && BumpOk(s.vq.num, ring, |s.h.published|,
                 s.callers[c := Bump(s.callers[c].req, s.callers[c].i0, s.callers[c].i1)], Some(c))
  {
    forall k: nat | s.dev.taken <= k < |s.h.published| ensures k % s.vq.num != |s.h.published| % s.vq.num {
      SlotsDiffer(k, |s.h.published|, s.vq.num);
    }
  }

  lemma RingMem(m: Memory, callers: seq<Caller>, c: nat)
    requires CallersMem(m, callers) && c < |callers| && callers[c].Ring?
    ensures CallerMem(m, c, Bump(callers[c].req, callers[c].i0, callers[c].i1))
  {
    hide Bound, Paired, Carries;
    assert CallerMem(m, c, callers[c]);
  }

  lemma NotifyInv(s: State, c: nat)
    requires Enabled(s, SNotify(c))
    requires Inv(s)
    ensures Inv(NotifyDevice(s, c))
  {
    hide FreeOk, CallersOk, HandlerOk, FlightOk, StageOk, ServedOk, AvailOk, BumpOk, UsedOk, HolderOk;
    hide CallersMem, TicketsMem, HandlerMem, ContextsOk, HandOverOk, KickOk, CallerMem;
    var pc := Wait(s.callers[c].req, s.callers[c].p);
    CallerStays(s.callers, s.h.owner, c, pc);
    BumpKept(s.vq.num, s.vq.availRing, |s.h.published|, s.callers, s.lock, c, pc);
    HolderKept(MemoryOf(s), s.callers, c, pc);
    AwakeKick(s.dev.taken, s.h.published, s.callers[c := pc]);
    AwakeStage(s);
    WaitMem(MemoryOf(s), c, pc);
    PlaceMem(MemoryOf(s), s.callers, c, pc);
    NotifyContexts(s, c);
  }

  lemma AwakeKick(taken: nat, published: seq<Ticket>, callers: seq<Caller>)
    ensures KickOk(true, taken, published, callers)
  {
  }

  /** Waking the device changes nothing it has taken. */
  lemma AwakeStage(s: State)
    requires StageOk(s.h.stage, s.dev, s.h.completed, s.h.collected)
    requires UsedOk(s.vq.num, s.vq.usedIdx, s.vq.usedRing, s.vq.lastSeen, s.h.published, s.h.completed, s.h.collected,
             s.dev)
    ensures StageOk(s.h.stage, s.dev.(awake := true), s.h.completed, s.h.collected)
    ensures UsedOk(s.vq.num, s.vq.usedIdx, s.vq.usedRing, s.vq.lastSeen, s.h.published, s.h.completed, s.h.collected,
            s.dev.(awake := true))
  {
  }

  lemma WaitMem(m: Memory, c: nat, pc: Caller)
    requires pc.Notify? || pc.Wait?
    ensures CallerMem(m, c, pc)
  {
  }

  lemma NotifyContexts(s: State, c: nat)
    requires ContextsOk(s.callers, s.contexts, s.h.published, s.h.stage, s.h.served, s.ist)
    requires At(s, c) && s.callers[c].Notify?
    ensures ContextsOk(s.callers[c := Wait(s.callers[c].req, s.callers[c].p)], s.contexts, s.h.published, s.h.stage,
            s.h.served, s.ist)
  {
  }

  lemma WakeInv(s: State, c: nat)
    requires Enabled(s, SWake(c))
    requires Inv(s)
    ensures Inv(Wake(s, c))
  {
    hide FreeOk, CallersOk, HandlerOk, FlightOk, StageOk, ServedOk, AvailOk, BumpOk, UsedOk, HolderOk;
    hide CallersMem, TicketsMem, HandlerMem, ContextsOk, HandOverOk, KickOk, CallerMem;
    var last := Wake(s, c).callers[c].last;
    var pc := Idle(last);
    CallerStays(s.callers, s.h.owner, c, pc);
    BumpKept(s.vq.num, s.vq.availRing, |s.h.published|, s.callers, s.lock, c, pc);
    KickKept(s.dev.awake, s.dev.taken, s.h.published, s.callers, c, pc);
    HolderKept(MemoryOf(s), s.callers, c, pc);
    IdleMem(MemoryOf(s), s.callers, c, last);
    WakeContexts(s, c);
    WakeHandOver(s, c);
  }

  lemma WakeContexts(s: State, c: nat)
    requires ContextsOk(s.callers, s.contexts, s.h.published, s.h.stage, s.h.served, s.ist)
    requires Enabled(s, SWake(c))
    ensures ContextsOk(Wake(s, c).callers, Wake(s, c).contexts, s.h.published, s.h.stage, s.h.served, s.ist)
    ensures Settled(s.h.stage, s.ist, s.callers[c].p)
  {
    assert CallerCtx(c, s.callers[c], s.contexts, s.h.published, s.h.stage, s.h.served, s.ist);
  }

  /** The chain of a caller that can return is no longer in the handler's hands. */
  lemma WakeHandOver(s: State, c: nat)
    requires ContextsOk(s.callers, s.contexts, s.h.published, s.h.stage, s.h.served, s.ist)
    requires HandlerMem(MemoryOf(s), s.ist, s.h.published, s.h.served)
    requires HandOverOk(s.ist, s.contexts, s.h.stage, s.h.completed, s.h.collected, s.h.served, s.h.delivered)
    requires Enabled(s, SWake(c))
    ensures HandOverOk(s.ist, s.contexts - {c}, s.h.stage, s.h.completed, s.h.collected, s.h.served, s.h.delivered)
  {
    WakeContexts(s, c);
    hide ContextsOk, HandlerMem;
    if s.ist.CopyValue? || s.ist.Post? {
      HandlerServesWaiter(s);
    }
  }

  // ----- The publication itself -----

  /** The owners once both descriptors of caller `c` are in flight as chain `p`. */
  function Launched(owner: seq<Owner>, i0: nat, i1: nat, p: nat): seq<Owner>
    requires i0 < |owner| && i1 < |owner|
  {
    owner[i0 := InFlight(p)][i1 := InFlight(p)]
  }

  lemma PublishInv(s: State, c: nat)
    requires Enabled(s, SBump(c))
    requires Inv(s)
    ensures Inv(Publish(s, c))
  {
    hide FreeOk, CallersOk, HandlerOk, FlightOk, StageOk, ServedOk, AvailOk, BumpOk, UsedOk, HolderOk;
    hide CallersMem, TicketsMem, HandlerMem, ContextsOk, HandOverOk, KickOk, CallerMem;
    hide IsMine;
    var i0, i1, p := s.callers[c].i0, s.callers[c].i1, |s.h.published|;
    var pc := Notify(s.callers[c].req, p);
    UnpackCaller(s, c);
    assert i0 in Held(s.callers[c]) && i1 in Held(s.callers[c]);
    RoomToPublish(s, c);
    PublishOwners(s, c);
    PublishFlight(s.h.published, s.h.stage, s.h.collected, s.h.owner, i0, i1, c, s.callers[c].req);
    PublishHistory(s, Ticket(i0, i1, c, s.callers[c].req));
    PublishRing(s, c);
    HolderKept(MemoryOf(s), s.callers, c, pc);
    WaitMem(MemoryOf(s), c, pc);
    PlaceMem(MemoryOf(s), s.callers, c, pc);
    PublishMem(s, c);
    PublishContexts(s, c);
  }

  lemma PublishOwners(s: State, c: nat)
    requires At(s, c) && s.callers[c].Bump? && PairDistinct(s.callers[c])
    requires FreeOk(s.vq.free, s.h.owner, s.vq.desc, s.vq.extras)
    requires CallersOk(s.callers, s.h.owner) && HandlerOk(s.ist, s.h.owner)
    ensures s.callers[c].i0 < |s.h.owner| && s.callers[c].i1 < |s.h.owner|
    ensures var owner := Launched(s.h.owner, s.callers[c].i0, s.callers[c].i1, |s.h.published|);
            && FreeOk(s.vq.free, owner, s.vq.desc, s.vq.extras)
            && CallersOk(s.callers[c := Notify(s.callers[c].req, |s.h.published|)], owner)
            && HandlerOk(s.ist, owner)
  {
    var i0, i1, p := s.callers[c].i0, s.callers[c].i1, |s.h.published|;
    HeldNotFree(s, c);
    hide FreeOk, CallersOk, HandlerOk;
    assert i0 in Held(s.callers[c]) && i1 in Held(s.callers[c]);
    FreeKept(s.vq.free, s.h.owner, s.vq.desc, s.vq.extras, i0, InFlight(p));
    FreeKept(s.vq.free, s.h.owner[i0 := InFlight(p)], s.vq.desc, s.vq.extras, i1, InFlight(p));
    HandlerUntouched(s.ist, s.h.owner, i0, InFlight(p));
    HandlerUntouched(s.ist, s.h.owner[i0 := InFlight(p)], i1, InFlight(p));
    CallerMoves(s.callers, s.h.owner, c, Notify(s.callers[c].req, p), Launched(s.h.owner, i0, i1, p));
  }

  lemma PublishFlight(published: seq<Ticket>, stage: seq<Stage>, collected: nat, owner: seq<Owner>,
                      i0: nat, i1: nat, c: nat, req: Buffer)
    requires FlightOk(published, stage, collected, owner)
    requires i0 < |owner| && i1 < |owner| && i0 != i1 && owner[i0].Building? && owner[i1].Building?
    ensures FlightOk(published + [Ticket(i0, i1, c, req)], stage + [Queued], collected,
            Launched(owner, i0, i1, |published|))
  {
    CountUpdate(owner, i0, InFlight(|published|), KInFlight);
    CountUpdate(owner[i0 := InFlight(|published|)], i1, InFlight(|published|), KInFlight);
  }

  /** A chain at the end of the queue is new to everything that was recorded before. */
  lemma PublishHistory(s: State, t: Ticket)
    requires StageOk(s.h.stage, s.dev, s.h.completed, s.h.collected) && |s.h.stage| == |s.h.published|
    requires ServedOk(s.h.published, s.h.stage, s.dev.work, s.h.served)
    requires UsedOk(s.vq.num, s.vq.usedIdx, s.vq.usedRing, s.vq.lastSeen, s.h.published, s.h.completed, s.h.collected,
             s.dev)
    requires HandOverOk(s.ist, s.contexts, s.h.stage, s.h.completed, s.h.collected, s.h.served, s.h.delivered)
    ensures StageOk(s.h.stage + [Queued], s.dev, s.h.completed, s.h.collected)
    ensures ServedOk(s.h.published + [t], s.h.stage + [Queued], s.dev.work, s.h.served)
    ensures UsedOk(s.vq.num, s.vq.usedIdx, s.vq.usedRing, s.vq.lastSeen, s.h.published + [t], s.h.completed,
            s.h.collected, s.dev)
    ensures HandOverOk(s.ist, s.contexts, s.h.stage + [Queued], s.h.completed, s.h.collected, s.h.served, s.h.delivered)
  {
  }

  lemma PublishRing(s: State, c: nat)
    requires At(s, c) && s.callers[c].Bump?
    requires AvailOk(s.vq.num, s.vq.availIdx, s.vq.availRing, s.h.published, s.dev.taken)
    requires BumpOk(s.vq.num, s.vq.availRing, |s.h.published|, s.callers, s.lock)
    requires KickOk(s.dev.awake, s.dev.taken, s.h.published, s.callers)
    ensures var t := Ticket(s.callers[c].i0, s.callers[c].i1, c, s.callers[c].req);
            var callers := s.callers[c := Notify(s.callers[c].req, |s.h.published|)];
            && AvailOk(s.vq.num, Inc16(s.vq.availIdx), s.vq.availRing, s.h.published + [t], s.dev.taken)
            && BumpOk(s.vq.num, s.vq.availRing, |s.h.published| + 1, callers, None)
            && KickOk(s.dev.awake, s.dev.taken, s.h.published + [t], callers)
  {
    hide AvailOk, KickOk;
    var t := Ticket(s.callers[c].i0, s.callers[c].i1, c, s.callers[c].req);
    PublishAvail(s.vq.num, s.vq.availIdx, s.vq.availRing, s.h.published, s.dev.taken, t);
    PublishKick(s.dev.awake, s.dev.taken, s.h.published, s.callers, c, t);
    PublishUnlocks(s.vq.num, s.vq.availRing, |s.h.published|, s.callers, s.lock, c);
  }

  /** The slot was written before the index moved. */
  lemma PublishAvail(num: nat, idx: nat, ring: seq<nat>, published: seq<Ticket>, taken: nat, t: Ticket)
    requires AvailOk(num, idx, ring, published, taken) && ring[|published| % num] == t.head
    ensures AvailOk(num, Inc16(idx), ring, published + [t], taken)
  {
    IncWrapped(|published|);
    forall k: nat | taken <= k < |published + [t]| ensures ring[k % num] == (published + [t])[k].head {
      if k < |published| {
        assert ring[k % num] == published[k].head;
      }
    }
  }

  lemma PublishKick(awake: bool, taken: nat, published: seq<Ticket>, callers: seq<Caller>, c: nat, t: Ticket)
    requires KickOk(awake, taken, published, callers) && c < |callers| && callers[c].Bump? && t.caller == c
    ensures KickOk(awake, taken, published + [t], callers[c := Notify(callers[c].req, |published|)])
  {
  }

  lemma PublishUnlocks(num: nat, ring: seq<nat>, count: nat, callers: seq<Caller>, lock: Option<nat>, c: nat)
    requires BumpOk(num, ring, count, callers, lock) && c < |callers| && callers[c].Bump?
    ensures BumpOk(num, ring, count + 1, callers[c := Notify(callers[c].req, count)], None)
  {
    forall d: nat | d < |callers| && d != c ensures !callers[d].Bump? {
    }
  }

  lemma PublishMem(s: State, c: nat)
    requires At(s, c) && s.callers[c].Bump? && CallerMem(MemoryOf(s), c, s.callers[c])
    requires TicketsMem(MemoryOf(s), s.h.published, s.h.stage, s.h.served)
    requires HandlerMem(MemoryOf(s), s.ist, s.h.published, s.h.served)
    requires ServedOk(s.h.published, s.h.stage, s.dev.work, s.h.served)
    ensures var t := Ticket(s.callers[c].i0, s.callers[c].i1, c, s.callers[c].req);
            && TicketsMem(MemoryOf(s), s.h.published + [t], s.h.stage + [Queued], s.h.served)
            && HandlerMem(MemoryOf(s), s.ist, s.h.published + [t], s.h.served)
  {
    hide Paired, Carries, Bound;
  }

  lemma PublishContexts(s: State, c: nat)
    requires At(s, c) && s.callers[c].Bump?
    requires ContextsOk(s.callers, s.contexts, s.h.published, s.h.stage, s.h.served, s.ist)
    ensures var t := Ticket(s.callers[c].i0, s.callers[c].i1, c, s.callers[c].req);
            ContextsOk(s.callers[c := Notify(s.callers[c].req, |s.h.published|)], s.contexts,
                       s.h.published + [t], s.h.stage + [Queued], s.h.served, s.ist)
  {
  }
}
