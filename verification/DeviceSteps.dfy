/** Every step the device takes keeps the invariant. */
module DeviceSteps {
  import opened Words
  import opened Wire
  import opened VirtqSpec
  import opened Protocol
  import opened Invariant
  import opened Frames

  /** Bookkeeping of a chain that is not collected may change freely as far as ownership and memory go. */
  lemma StageMoves(s: State, p: nat, st: Stage)
    requires p < |s.h.stage| && !s.h.stage[p].Collected? && !st.Collected?
    requires FlightOk(s.h.published, s.h.stage, s.h.collected, s.h.owner)
    requires TicketsMem(MemoryOf(s), s.h.published, s.h.stage, s.h.served)
    requires ContextsOk(s.callers, s.contexts, s.h.published, s.h.stage, s.h.served, s.ist)
    requires HandOverOk(s.ist, s.contexts, s.h.stage, s.h.completed, s.h.collected, s.h.served, s.h.delivered)
    ensures FlightOk(s.h.published, s.h.stage[p := st], s.h.collected, s.h.owner)
    ensures TicketsMem(MemoryOf(s), s.h.published, s.h.stage[p := st], s.h.served)
    ensures ContextsOk(s.callers, s.contexts, s.h.published, s.h.stage[p := st], s.h.served, s.ist)
    ensures HandOverOk(s.ist, s.contexts, s.h.stage[p := st], s.h.completed, s.h.collected, s.h.served, s.h.delivered)
  {
    StageFlight(s.h.published, s.h.stage, s.h.collected, s.h.owner, p, st);
    StageTickets(MemoryOf(s), s.h.published, s.h.stage, s.h.served, p, st);
    StageContexts(s, p, st);
  }

  lemma StageFlight(published: seq<Ticket>, stage: seq<Stage>, collected: nat, owner: seq<Owner>, p: nat, st: Stage)
    requires p < |stage| && !stage[p].Collected? && !st.Collected?
    requires FlightOk(published, stage, collected, owner)
    ensures FlightOk(published, stage[p := st], collected, owner)
  {
    assert forall q: nat :: Outstanding(stage[p := st], q) <==> Outstanding(stage, q);
  }

  lemma StageTickets(m: Memory, published: seq<Ticket>, stage: seq<Stage>, served: map<nat, Served>, p: nat, st: Stage)
    requires p < |stage| && !stage[p].Collected? && !st.Collected?
    requires TicketsMem(m, published, stage, served)
    ensures TicketsMem(m, published, stage[p := st], served)
  {
    hide TicketMem;
    assert forall q: nat :: Outstanding(stage[p := st], q) <==> Outstanding(stage, q);
  }

  lemma StageContexts(s: State, p: nat, st: Stage)
    requires p < |s.h.stage| && !s.h.stage[p].Collected? && !st.Collected?
    requires ContextsOk(s.callers, s.contexts, s.h.published, s.h.stage, s.h.served, s.ist)
    requires HandOverOk(s.ist, s.contexts, s.h.stage, s.h.completed, s.h.collected, s.h.served, s.h.delivered)
    ensures ContextsOk(s.callers, s.contexts, s.h.published, s.h.stage[p := st], s.h.served, s.ist)
    ensures HandOverOk(s.ist, s.contexts, s.h.stage[p := st], s.h.completed, s.h.collected, s.h.served, s.h.delivered)
  {
    var stage' := s.h.stage[p := st];
    assert forall q: nat :: Settled(stage', s.ist, q) <==> Settled(s.h.stage, s.ist, q);
    forall c: nat | c < |s.callers|
      ensures CallerCtx(c, s.callers[c], s.contexts, s.h.published, stage', s.h.served, s.ist)
    {
      assert CallerCtx(c, s.callers[c], s.contexts, s.h.published, s.h.stage, s.h.served, s.ist);
    }
  }

  /** The device read `head` from the ring. */
  function Taking(s: State, head: nat): State
    requires s.dev.taken < |s.h.stage|
  {
    s.(dev := s.dev.(taken := s.dev.taken + 1, work := s.dev.work[s.dev.taken := Job(head, false)]),
       h := s.h.(stage := s.h.stage[s.dev.taken := Working]))
  }

  lemma TakeInv(s: State)
    requires Enabled(s, DTake)
    requires Inv(s)
    ensures Inv(DevTake(s))
  {
    hide Inv, DevTake, Taking;
    InvShape(s);
    TakeFacts(s);
    TakeReads(s);
    TakingInv(s);
  }

  lemma TakeFacts(s: State)
    requires Enabled(s, DTake)
    requires Inv(s)
    ensures IsPow2(s.vq.num) && s.vq.num <= WORD && |s.h.stage| == |s.h.published| && |s.vq.availRing| == s.vq.num > 0
    ensures s.dev.taken < |s.h.published| && s.h.stage[s.dev.taken].Queued?
    ensures s.vq.availRing[s.dev.taken % s.vq.num] == s.h.published[s.dev.taken].head
  {
    hide FreeOk, CallersOk, HandlerOk, FlightOk, StageOk, ServedOk, AvailOk, BumpOk, UsedOk, HolderOk;
    hide CallersMem, TicketsMem, HandlerMem, ContextsOk, HandOverOk, KickOk, CallerMem;
    InvShape(s);
    TakeCount(s);
  }

  lemma TakingInv(s: State)
    requires s.dev.awake && s.dev.taken < |s.h.published| && |s.h.stage| == |s.h.published|
    requires s.h.stage[s.dev.taken].Queued?
    requires Inv(s)
    ensures Inv(Taking(s, s.h.published[s.dev.taken].head))
  {
    hide FreeOk, CallersOk, HandlerOk, FlightOk, StageOk, ServedOk, AvailOk, BumpOk, UsedOk, HolderOk;
    hide CallersMem, TicketsMem, HandlerMem, ContextsOk, HandOverOk, KickOk, CallerMem;
    StageMoves(s, s.dev.taken, Working);
    TakeHistory(s, s.h.published[s.dev.taken].head);
  }

  /** The slot it reads holds the head published at its count. */
  lemma TakeReads(s: State)
    requires Enabled(s, DTake) && ShapeOk(s.vq) && IsPow2(s.vq.num) && s.vq.num <= WORD
    requires s.dev.taken < |s.h.published| && s.dev.taken < |s.h.stage|
    requires s.vq.availRing[s.dev.taken % s.vq.num] == s.h.published[s.dev.taken].head
    ensures DevTake(s) == Taking(s, s.h.published[s.dev.taken].head)
  {
    SlotOfWrapped(s.dev.taken, s.vq.num);
  }

  /** The device sees a new index only when there is a chain it has not taken. */
  lemma TakeCount(s: State)
    requires AvailOk(s.vq.num, s.vq.availIdx, s.vq.availRing, s.h.published, s.dev.taken)
    requires StageOk(s.h.stage, s.dev, s.h.completed, s.h.collected) && |s.h.stage| == |s.h.published|
    requires s.vq.availIdx != s.dev.taken % WORD
    ensures s.dev.taken < |s.h.published|
    ensures s.vq.availRing[s.dev.taken % s.vq.num] == s.h.published[s.dev.taken].head
    ensures s.h.stage[s.dev.taken].Queued?
  {
  }

  lemma TakeHistory(s: State, head: nat)
    requires s.dev.taken < |s.h.published| && head == s.h.published[s.dev.taken].head
    requires s.dev.awake
    requires StageOk(s.h.stage, s.dev, s.h.completed, s.h.collected) && |s.h.stage| == |s.h.published|
    requires ServedOk(s.h.published, s.h.stage, s.dev.work, s.h.served)
    requires AvailOk(s.vq.num, s.vq.availIdx, s.vq.availRing, s.h.published, s.dev.taken)
    requires UsedOk(s.vq.num, s.vq.usedIdx, s.vq.usedRing, s.vq.lastSeen, s.h.published, s.h.completed, s.h.collected,
             s.dev)
    ensures var dev := s.dev.(taken := s.dev.taken + 1, work := s.dev.work[s.dev.taken := Job(head, false)]);
            var stage := s.h.stage[s.dev.taken := Working];
            && StageOk(stage, dev, s.h.completed, s.h.collected)
            && ServedOk(s.h.published, stage, dev.work, s.h.served)
            && AvailOk(s.vq.num, s.vq.availIdx, s.vq.availRing, s.h.published, dev.taken)
            && UsedOk(s.vq.num, s.vq.usedIdx, s.vq.usedRing, s.vq.lastSeen, s.h.published, s.h.completed, s.h.collected,
                 dev)
            && KickOk(dev.awake, dev.taken, s.h.published, s.callers)
  {
    assert s.dev.taken !in s.dev.work;
  }

  // ----- Answering a request -----

  lemma RespondInv(s: State, p: nat, status: nat, value: nat)
    requires Enabled(s, DRespond(p, status, value))
    requires Inv(s)
    ensures Inv(DevRespond(s, p, status, value))
  {
    hide FreeOk, CallersOk, HandlerOk, FlightOk, StageOk, ServedOk, AvailOk, BumpOk, UsedOk, HolderOk;
    hide CallersMem, TicketsMem, HandlerMem, ContextsOk, HandOverOk, KickOk, CallerMem;
    hide Paired, Carries, Bound;
    InvShape(s);
    RespondFacts(s, p);
    var t := s.h.published[p];
    var m := MemoryOf(s);
    var m' := m.(mem := m.mem[m.desc[t.tail].addr := Response(status, value)]);
    var served := s.h.served[p := Served(t.req, status, value)];
    RespondTouches(m, m', s.callers, s.h.owner, t, p, served);
    CallersMemKept(m, m', s.callers, s.h.owner, InFlight(p));
    RespondTickets(s, m', p, served);
    RespondHandler(s, m', p, served);
    RespondHistory(s, p, served);
  }

  lemma RespondFacts(s: State, p: nat)
    requires p in s.dev.work
    requires StageOk(s.h.stage, s.dev, s.h.completed, s.h.collected)
    requires FlightOk(s.h.published, s.h.stage, s.h.collected, s.h.owner)
    requires TicketsMem(MemoryOf(s), s.h.published, s.h.stage, s.h.served)
    requires UsedOk(s.vq.num, s.vq.usedIdx, s.vq.usedRing, s.vq.lastSeen, s.h.published, s.h.completed, s.h.collected,
             s.dev)
    ensures p < |s.h.published| && p < |s.h.stage| && s.h.stage[p].Working?
            && s.dev.work[p].head == s.h.published[p].head
    ensures var t := s.h.published[p]; var desc := s.vq.desc; var mem := s.vq.mem;
            && t.head < |s.h.owner| && t.tail < |s.h.owner| && s.h.owner[t.head] == s.h.owner[t.tail] == InFlight(p)
            && t.head != t.tail && TicketMem(MemoryOf(s), t, p, s.h.served)
            && t.head < |desc| && t.tail < |desc| && GoesOn(desc[t.head].flags) && desc[t.head].next == t.tail
                 && !GoesOn(desc[t.tail].flags)
            && desc[t.head].addr in mem && desc[t.tail].addr in mem && mem[desc[t.head].addr] == t.req
            && !DeviceWrites(desc[t.head].flags) && DeviceWrites(desc[t.tail].flags)
            && desc[t.head].len == |RequestBytes(0, 0, 0)| && desc[t.tail].len == |ResponseBytes(0, 0)|
  {
    FlagFacts(0);
    assert Outstanding(s.h.stage, p);
  }

  lemma RespondTouches(m: Memory, m': Memory, callers: seq<Caller>, owner: seq<Owner>, t: Ticket, p: nat,
                       served: map<nat, Served>)
    requires HolderOk(m, callers) && |owner| == |m.desc| == |m.extras|
    requires t.head < |owner| && t.tail < |owner| && t.head != t.tail && owner[t.tail] == InFlight(p)
    requires Paired(m, t.head, t.tail) && Carries(m, t.head, t.req) && Tagged(m, t.head, t.caller)
    requires p in served && m' == m.(mem := m.mem[m.desc[t.tail].addr := Response(served[p].status, served[p].value)])
    ensures OnlyTouches(m, m', owner, InFlight(p)) && KeepsAllLoose(m, m')
    ensures HolderOk(m', callers)
    ensures TicketMem(m', t, p, served)
  {
  }

  lemma RespondTickets(s: State, m': Memory, p: nat, served: map<nat, Served>)
    requires TicketsMem(MemoryOf(s), s.h.published, s.h.stage, s.h.served)
    requires FlightOk(s.h.published, s.h.stage, s.h.collected, s.h.owner)
    requires OnlyTouches(MemoryOf(s), m', s.h.owner, InFlight(p))
    requires p < |s.h.published| && TicketMem(m', s.h.published[p], p, served)
    requires forall q: nat :: q != p ==>
               (q in served <==> q in s.h.served) && (q in served ==> served[q] == s.h.served[q])
    ensures TicketsMem(m', s.h.published, s.h.stage, served)
  {
    hide SameAt, TicketMem;
    forall q: nat | q < |s.h.published| && Outstanding(s.h.stage, q) && q != p
      ensures TicketMem(m', s.h.published[q], q, served)
    {
      TicketMemKept(MemoryOf(s), m', s.h.published[q], q, s.h.served);
      SameServed(m', s.h.published[q], q, s.h.served, served);
    }
  }

  lemma SameServed(m: Memory, t: Ticket, q: nat, served: map<nat, Served>, served': map<nat, Served>)
    requires TicketMem(m, t, q, served)
    requires (q in served' <==> q in served) && (q in served' ==> served'[q] == served[q])
    ensures TicketMem(m, t, q, served')
  {
  }

  lemma RespondHandler(s: State, m': Memory, p: nat, served: map<nat, Served>)
    requires HandlerMem(MemoryOf(s), s.ist, s.h.published, s.h.served) && HandlerOk(s.ist, s.h.owner)
    requires HandOverOk(s.ist, s.contexts, s.h.stage, s.h.completed, s.h.collected, s.h.served, s.h.delivered)
    requires OnlyTouches(MemoryOf(s), m', s.h.owner, InFlight(p))
    requires p < |s.h.stage| && s.h.stage[p].Working?
    requires forall q: nat :: q != p ==>
               (q in served <==> q in s.h.served) && (q in served ==> served[q] == s.h.served[q])
    ensures HandlerMem(m', s.ist, s.h.published, served)
  {
    hide OnlyTouches, HandlerOk, TicketMem, Bound, NoBuffer, Zero;
    HandlerMemOther(MemoryOf(s), m', s.ist, s.h.published, s.h.served, s.h.owner, InFlight(p));
    if Handled(s.ist).Some? {
      var q := Handled(s.ist).value;
      SameServed(m', s.h.published[q], q, s.h.served, served);
    }
  }

  lemma RespondHistory(s: State, p: nat, served: map<nat, Served>)
    requires p in s.dev.work && !s.dev.work[p].done && p < |s.h.stage| && s.h.stage[p].Working? && p < |s.h.published|
    requires p in served && served == s.h.served[p := served[p]] && served[p].req == s.h.published[p].req
    requires StageOk(s.h.stage, s.dev, s.h.completed, s.h.collected)
    requires ServedOk(s.h.published, s.h.stage, s.dev.work, s.h.served)
    requires UsedOk(s.vq.num, s.vq.usedIdx, s.vq.usedRing, s.vq.lastSeen, s.h.published, s.h.completed, s.h.collected,
             s.dev)
    requires ContextsOk(s.callers, s.contexts, s.h.published, s.h.stage, s.h.served, s.ist)
    requires HandOverOk(s.ist, s.contexts, s.h.stage, s.h.completed, s.h.collected, s.h.served, s.h.delivered)
    ensures var dev := s.dev.(work := s.dev.work[p := Job(s.dev.work[p].head, true)]);
            && StageOk(s.h.stage, dev, s.h.completed, s.h.collected)
            && ServedOk(s.h.published, s.h.stage, dev.work, served)
            && UsedOk(s.vq.num, s.vq.usedIdx, s.vq.usedRing, s.vq.lastSeen, s.h.published, s.h.completed, s.h.collected,
                 dev)
    ensures ContextsOk(s.callers, s.contexts, s.h.published, s.h.stage, served, s.ist)
    ensures HandOverOk(s.ist, s.contexts, s.h.stage, s.h.completed, s.h.collected, served, s.h.delivered)
  {
    RespondStage(s, p, served);
    RespondContexts(s, p, served);
  }

  lemma RespondStage(s: State, p: nat, served: map<nat, Served>)
    requires p in s.dev.work && !s.dev.work[p].done && p < |s.h.stage| && s.h.stage[p].Working? && p < |s.h.published|
    requires p in served && served == s.h.served[p := served[p]] && served[p].req == s.h.published[p].req
    requires StageOk(s.h.stage, s.dev, s.h.completed, s.h.collected)
    requires ServedOk(s.h.published, s.h.stage, s.dev.work, s.h.served)
    requires UsedOk(s.vq.num, s.vq.usedIdx, s.vq.usedRing, s.vq.lastSeen, s.h.published, s.h.completed, s.h.collected,
             s.dev)
    ensures var dev := s.dev.(work := s.dev.work[p := Job(s.dev.work[p].head, true)]);
            && StageOk(s.h.stage, dev, s.h.completed, s.h.collected)
            && ServedOk(s.h.published, s.h.stage, dev.work, served)
            && UsedOk(s.vq.num, s.vq.usedIdx, s.vq.usedRing, s.vq.lastSeen, s.h.published, s.h.completed, s.h.collected,
                 dev)
  {
    assert s.dev.work[p := Job(s.dev.work[p].head, true)].Keys == s.dev.work.Keys;
  }

  lemma RespondContexts(s: State, p: nat, served: map<nat, Served>)
    requires p < |s.h.stage| && s.h.stage[p].Working?
    requires p in served && served == s.h.served[p := served[p]]
    requires ContextsOk(s.callers, s.contexts, s.h.published, s.h.stage, s.h.served, s.ist)
    requires HandOverOk(s.ist, s.contexts, s.h.stage, s.h.completed, s.h.collected, s.h.served, s.h.delivered)
    ensures ContextsOk(s.callers, s.contexts, s.h.published, s.h.stage, served, s.ist)
    ensures HandOverOk(s.ist, s.contexts, s.h.stage, s.h.completed, s.h.collected, served, s.h.delivered)
  {
    forall c: nat | c < |s.callers|
      ensures CallerCtx(c, s.callers[c], s.contexts, s.h.published, s.h.stage, served, s.ist)
    {
      assert CallerCtx(c, s.callers[c], s.contexts, s.h.published, s.h.stage, s.h.served, s.ist);
    }
    if Handled(s.ist).Some? {
      assert Handled(s.ist).value != p;
    }
  }

  // ----- Publishing a used element -----

  /** Uncollected completions are fewer than the ring has slots, and one more is on its way. */
  lemma UsedHasRoom(s: State, p: nat)
    requires p in s.dev.work
    requires StageOk(s.h.stage, s.dev, s.h.completed, s.h.collected)
    requires FlightOk(s.h.published, s.h.stage, s.h.collected, s.h.owner) && |s.h.owner| == s.vq.num
    ensures |s.h.completed| < s.h.collected + s.vq.num
  {
    FlightBound(s.h.published, s.h.stage, s.h.collected, s.h.owner);
    assert |s.dev.work| > 0;
  }

  lemma StageInv(s: State, p: nat)
    requires Enabled(s, DStage(p))
    requires Inv(s)
    ensures Inv(DevStage(s, p))
  {
    hide FreeOk, CallersOk, HandlerOk, FlightOk, StageOk, ServedOk, AvailOk, BumpOk, UsedOk, HolderOk;
    hide CallersMem, TicketsMem, HandlerMem, ContextsOk, HandOverOk, KickOk, CallerMem;
    InvShape(s);
    UsedHasRoom(s, p);
    SlotOfWrapped(|s.h.completed|, s.vq.num);
    StageElem(s, p);
  }

  lemma StageElem(s: State, p: nat)
    requires p in s.dev.work && s.dev.work[p].done
    requires StageOk(s.h.stage, s.dev, s.h.completed, s.h.collected)
    requires UsedOk(s.vq.num, s.vq.usedIdx, s.vq.usedRing, s.vq.lastSeen, s.h.published, s.h.completed, s.h.collected,
             s.dev)
    requires s.vq.num > 0 && |s.vq.usedRing| == s.vq.num && |s.h.completed| < s.h.collected + s.vq.num
    requires s.vq.usedIdx % s.vq.num == |s.h.completed| % s.vq.num
    ensures var dev := s.dev.(staged := Some(p));
            && StageOk(s.h.stage, dev, s.h.completed, s.h.collected)
            && UsedOk(s.vq.num, s.vq.usedIdx,
                 s.vq.usedRing[s.vq.usedIdx % s.vq.num := UsedElem(s.dev.work[p].head, RESPONSE_SIZE)],
                      s.vq.lastSeen, s.h.published, s.h.completed, s.h.collected, dev)
  {
    forall j: nat | s.h.collected <= j < |s.h.completed| ensures j % s.vq.num != |s.h.completed| % s.vq.num {
      SlotsDiffer(j, |s.h.completed|, s.vq.num);
    }
  }

  lemma PublishInv(s: State)
    requires Enabled(s, DPublish)
    requires Inv(s)
    ensures Inv(DevPublish(s))
  {
    hide FreeOk, CallersOk, HandlerOk, FlightOk, StageOk, ServedOk, AvailOk, BumpOk, UsedOk, HolderOk;
    hide CallersMem, TicketsMem, HandlerMem, ContextsOk, HandOverOk, KickOk, CallerMem;
    var p := s.dev.staged.value;
    var dev := s.dev.(work := s.dev.work - {p}, staged := None);
    InvShape(s);
    PublishStage(s, p, dev);
    PublishUsed(s, p, dev);
    PublishHandOver(s, p);
    var s1 := s.(h := s.h.(completed := s.h.completed + [p]));
    StageMoves(s1, p, Used(|s.h.completed|));
    var s2 := s1.(dev := dev, h := s1.h.(stage := s.h.stage[p := Used(|s.h.completed|)]),
                  vq := s.vq.(usedIdx := Inc16(s.vq.usedIdx)));
    FlagsKept(s2, DevPublish(s).dev);
  }

  lemma PublishStage(s: State, p: nat, dev: Device)
    requires s.dev.staged == Some(p) && dev == s.dev.(work := s.dev.work - {p}, staged := None)
    requires StageOk(s.h.stage, s.dev, s.h.completed, s.h.collected)
    requires ServedOk(s.h.published, s.h.stage, s.dev.work, s.h.served)
    ensures p in s.dev.work && p < |s.h.stage| && s.h.stage[p].Working?
    ensures StageOk(s.h.stage[p := Used(|s.h.completed|)], dev, s.h.completed + [p], s.h.collected)
    ensures ServedOk(s.h.published, s.h.stage[p := Used(|s.h.completed|)], dev.work, s.h.served)
  {
    hide StagesTaken, StagesListed, ServedOk;
    StagedWorks(s.h.stage, s.dev);
    PublishServed(s.h.published, s.h.stage, s.dev.work, s.h.served, p, |s.h.completed|);
    PublishTaken(s.h.stage, s.dev, p, |s.h.completed|);
    PublishListed(s.h.stage, s.h.completed, s.h.collected, p);
  }

  lemma StagedWorks(stage: seq<Stage>, dev: Device)
    requires StagesTaken(stage, dev) && dev.staged.Some?
    ensures var p := dev.staged.value; p in dev.work && dev.work[p].done && p < |stage| && stage[p].Working?
  {
  }

  lemma PublishTaken(stage: seq<Stage>, dev: Device, p: nat, j: nat)
    requires StagesTaken(stage, dev) && p in dev.work && p < |stage| && stage[p].Working?
    ensures StagesTaken(stage[p := Used(j)], dev.(work := dev.work - {p}, staged := None))
    ensures |dev.work - {p}| == |dev.work| - 1
  {
    assert (dev.work - {p}).Keys == dev.work.Keys - {p};
  }

  lemma PublishServed(published: seq<Ticket>, stage: seq<Stage>, work: map<nat, Job>, served: map<nat, Served>, p: nat,
                      j: nat)
    requires ServedOk(published, stage, work, served) && p in work && work[p].done
    ensures ServedOk(published, stage[p := Used(j)], work - {p}, served)
  {
  }

  /** The new completion is the last one, and the earlier ones are where they were. */
  lemma PublishListed(stage: seq<Stage>, completed: seq<nat>, collected: nat, p: nat)
    requires StagesListed(stage, completed, collected) && p < |stage| && stage[p].Working? && collected <= |completed|
    ensures StagesListed(stage[p := Used(|completed|)], completed + [p], collected)
  {
  }

  lemma PublishUsed(s: State, p: nat, dev: Device)
    requires s.dev.staged == Some(p) && dev == s.dev.(work := s.dev.work - {p}, staged := None) && p in s.dev.work
    requires UsedOk(s.vq.num, s.vq.usedIdx, s.vq.usedRing, s.vq.lastSeen, s.h.published, s.h.completed, s.h.collected,
             s.dev)
    ensures UsedOk(s.vq.num, Inc16(s.vq.usedIdx), s.vq.usedRing, s.vq.lastSeen, s.h.published, s.h.completed + [p],
            s.h.collected, dev)
  {
    var n, completed' := |s.h.completed|, s.h.completed + [p];
    IncWrapped(n);
    assert forall j: nat :: j < n ==> completed'[j] == s.h.completed[j];
    forall j: nat | s.h.collected <= j < |completed'|
      ensures s.vq.usedRing[j % s.vq.num].id == s.h.published[completed'[j]].head
    {
      if j < n {
        assert s.vq.usedRing[j % s.vq.num].id == s.h.published[s.h.completed[j]].head;
      }
    }
  }

  lemma PublishHandOver(s: State, p: nat)
    requires HandOverOk(s.ist, s.contexts, s.h.stage, s.h.completed, s.h.collected, s.h.served, s.h.delivered)
    ensures HandOverOk(s.ist, s.contexts, s.h.stage, s.h.completed + [p], s.h.collected, s.h.served, s.h.delivered)
  {
    var k := if Handled(s.ist).Some? then s.h.collected - 1 else s.h.collected;
    assert (s.h.completed + [p])[..k] == s.h.completed[..k];
  }

  // ----- Signals -----

  /** The two signal flags mean nothing to the device's bookkeeping. */
  lemma FlagsKept(s: State, dev: Device)
    requires dev.taken == s.dev.taken && dev.work == s.dev.work && dev.staged == s.dev.staged
    requires StageOk(s.h.stage, s.dev, s.h.completed, s.h.collected)
    requires UsedOk(s.vq.num, s.vq.usedIdx, s.vq.usedRing, s.vq.lastSeen, s.h.published, s.h.completed, s.h.collected,
             s.dev)
    ensures StageOk(s.h.stage, dev, s.h.completed, s.h.collected)
    ensures UsedOk(s.vq.num, s.vq.usedIdx, s.vq.usedRing, s.vq.lastSeen, s.h.published, s.h.completed, s.h.collected,
            dev)
  {
  }

  lemma RaiseInv(s: State)
    requires Enabled(s, DRaise)
    requires Inv(s)
    ensures Inv(Next(s, DRaise))
  {
    hide FreeOk, CallersOk, HandlerOk, FlightOk, StageOk, ServedOk, AvailOk, BumpOk, UsedOk, HolderOk;
    hide CallersMem, TicketsMem, HandlerMem, ContextsOk, HandOverOk, KickOk, CallerMem;
    FlagsKept(s, s.dev.(mustRaise := false));
  }

  /** The device goes to sleep only when it has taken every published chain. */
  lemma SleepInv(s: State)
    requires Enabled(s, DSleep)
    requires Inv(s)
    ensures Inv(Next(s, DSleep))
  {
    hide FreeOk, CallersOk, HandlerOk, FlightOk, StageOk, ServedOk, AvailOk, BumpOk, UsedOk, HolderOk;
    hide CallersMem, TicketsMem, HandlerMem, ContextsOk, HandOverOk, KickOk, CallerMem;
    FlagsKept(s, s.dev.(awake := false));
    InvShape(s);
    SleepCount(s);
  }

  lemma SleepCount(s: State)
    requires FlightOk(s.h.published, s.h.stage, s.h.collected, s.h.owner) && |s.h.owner| == s.vq.num < WORD
    requires StageOk(s.h.stage, s.dev, s.h.completed, s.h.collected)
    requires AvailOk(s.vq.num, s.vq.availIdx, s.vq.availRing, s.h.published, s.dev.taken)
    ensures s.vq.availIdx == s.dev.taken % WORD <==> s.dev.taken == |s.h.published|
    ensures s.dev.taken == |s.h.published| ==> KickOk(false, s.dev.taken, s.h.published, s.callers)
  {
    FlightBound(s.h.published, s.h.stage, s.h.collected, s.h.owner);
    WrappedEquality(s.dev.taken, |s.h.published|);
  }
}
