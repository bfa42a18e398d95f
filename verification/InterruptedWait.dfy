/** src/gpio/gpio.c:141-150: the loop around sem_wait retries on a return value of EINTR, but sem_wait returns -1
    and sets errno. An interrupted wait is therefore not repeated: the call gives up with -1 while its context, on
    a stack that is about to go, may still be recorded for a chain in flight. */
module InterruptedWait {
  import opened Words
  import opened VirtqSpec
  import opened Protocol
  import opened Invariant
  import opened Frames
  import opened Reach
  import opened Changes
  import opened Safety
  import opened GpioSpec
  import opened Liveness
  import CallerSteps
  import Refinement
  import Virtqs

  /** The wait of caller `c` is interrupted: its call returns -1. */
  function Interrupted(s: State, c: nat): State
    requires At(s, c)
  {
    Leave(s, c, Failed(MinusOne))
  }

  /** Chain `p` is in flight or being handed over. */
  predicate UnderWay(s: State, p: nat) {
    Outstanding(s.h.stage, p) || Handled(s.ist) == Some(p)
  }

  ghost predicate AllContextsLive(s: State) {
    forall p: nat :: p < |s.h.published| && UnderWay(s, p) ==> ContextLive(s, p)
  }

  /** Where a waiting caller's chain stands, and its semaphore. */
  lemma WaiterFacts(s: State, c: nat)
    requires At(s, c) && s.callers[c].Wait?
    requires Inv(s)
    ensures var p := s.callers[c].p;
            && p < |s.h.published| && s.h.published[p].caller == c && c in s.contexts
            && (UnderWay(s, p) <==> s.contexts[c].sem == 0)
  {
    hide FreeOk, CallersOk, HandlerOk, FlightOk, StageOk, ServedOk, AvailOk, BumpOk, UsedOk, HolderOk;
    hide CallersMem, TicketsMem, HandlerMem, HandOverOk, KickOk, CallerMem;
    assert CallerCtx(c, s.callers[c], s.contexts, s.h.published, s.h.stage, s.h.served, s.ist);
  }

  lemma InvLive(s: State)
    requires Inv(s)
    ensures AllContextsLive(s)
  {
    hide Inv;
    InvShape(s);
    forall p: nat | p < |s.h.published| && UnderWay(s, p) ensures ContextLive(s, p) {
      ContextSafetyMem(s, p);
      ContextSafetyCtx(s, p);
    }
  }

  lemma GoneIsDead(s: State, c: nat, p: nat)
    requires At(s, c) && p < |s.h.published| && s.h.published[p].caller == c && UnderWay(s, p)
    ensures !AllContextsLive(Interrupted(s, c))
  {
    assert UnderWay(Interrupted(s, c), p) && !ContextLive(Interrupted(s, c), p);
  }

  // ----- An interruption that comes too late to matter -----

  /** The semaphore was posted: what is left is a state the protocol knows, for the call fails instead of returning. */
  lemma LateInterruption(s: State, c: nat)
    requires Enabled(s, SWake(c))
    requires Inv(s)
    ensures Inv(Interrupted(s, c))
  {
    hide FreeOk, CallersOk, HandlerOk, FlightOk, StageOk, ServedOk, AvailOk, BumpOk, UsedOk, HolderOk;
    hide CallersMem, TicketsMem, HandlerMem, ContextsOk, HandOverOk, KickOk, CallerMem;
    var last := Failed(MinusOne);
    var pc := Idle(last);
    CallerStays(s.callers, s.h.owner, c, pc);
    BumpKept(s.vq.num, s.vq.availRing, |s.h.published|, s.callers, s.lock, c, pc);
    KickKept(s.dev.awake, s.dev.taken, s.h.published, s.callers, c, pc);
    HolderKept(MemoryOf(s), s.callers, c, pc);
    CallerSteps.IdleMem(MemoryOf(s), s.callers, c, last);
    CallerSteps.WakeContexts(s, c);
    OutcomeIsFree(s, c);
    CallerSteps.WakeHandOver(s, c);
  }

  /** Nobody's context depends on how a finished call ended. */
  lemma OutcomeIsFree(s: State, c: nat)
    requires Enabled(s, SWake(c))
    requires ContextsOk(Wake(s, c).callers, Wake(s, c).contexts, s.h.published, s.h.stage, s.h.served, s.ist)
    ensures ContextsOk(Interrupted(s, c).callers, Interrupted(s, c).contexts, s.h.published, s.h.stage, s.h.served,
            s.ist)
  {
    var w, t := Wake(s, c), Interrupted(s, c);
    forall d: nat | d < |t.callers|
      ensures CallerCtx(d, t.callers[d], t.contexts, s.h.published, s.h.stage, s.h.served, s.ist)
    {
      assert CallerCtx(d, w.callers[d], w.contexts, s.h.published, s.h.stage, s.h.served, s.ist);
    }
  }

  // ----- One that comes too early -----

  /** Steps of the others that neither know the caller nor write its context do the same without it. */
  lemma DeviceCommutes(s: State, step: Step, c: nat)
    requires Enabled(s, step) && ByDevice(step) && At(s, c)
    ensures At(Next(s, step), c) && Enabled(Interrupted(s, c), step)
    ensures Next(Interrupted(s, c), step) == Interrupted(Next(s, step), c)
  {
    hide DevTake, DevRespond, DevStage, DevPublish;
    match step
    case DTake => DevTakeCommutes(s, c);
    case DRespond(p, status, value) => DevRespondCommutes(s, p, status, value, c);
    case DStage(p) => DevStageCommutes(s, p, c);
    case DPublish => DevPublishCommutes(s, c);
    case DRaise =>
    case DSleep =>
  }

  lemma DevTakeCommutes(s: State, c: nat)
    requires Enabled(s, DTake) && At(s, c)
    ensures At(DevTake(s), c) && DevTake(Interrupted(s, c)) == Interrupted(DevTake(s), c)
  {
  }

  lemma DevRespondCommutes(s: State, p: nat, status: nat, value: nat, c: nat)
    requires Enabled(s, DRespond(p, status, value)) && At(s, c)
    ensures At(DevRespond(s, p, status, value), c)
            && DevRespond(Interrupted(s, c), p, status, value) == Interrupted(DevRespond(s, p, status, value), c)
  {
  }

  lemma DevStageCommutes(s: State, p: nat, c: nat)
    requires Enabled(s, DStage(p)) && At(s, c)
    ensures At(DevStage(s, p), c) && DevStage(Interrupted(s, c), p) == Interrupted(DevStage(s, p), c)
  {
  }

  lemma DevPublishCommutes(s: State, c: nat)
    requires Enabled(s, DPublish) && At(s, c)
    ensures At(DevPublish(s), c) && DevPublish(Interrupted(s, c)) == Interrupted(DevPublish(s), c)
  {
  }

  lemma ThreadCommutes(s: State, step: Step, c: nat)
    requires Enabled(s, step) && ByThread(step) && At(s, c) && Touched(s) != Some(c)
    ensures At(Next(s, step), c) && Enabled(Interrupted(s, c), step)
    ensures Next(Interrupted(s, c), step) == Interrupted(Next(s, step), c)
  {
    hide GetChain, CopyStatus, CopyVal, PostSem, HandlerFree, Next;
    ThreadNext(s);
    ThreadNext(Interrupted(s, c));
    match step
    case IGet => GetCommutes(s, c);
    case IStatus => StatusCommutes(s, c);
    case IValue => ValueCommutes(s, c);
    case IPost => PostCommutes(s, c);
    case IFree => FreeCommutes(s, c);
    case _ => SignalCommutes(s, step, c);
  }

  lemma SignalCommutes(s: State, step: Step, c: nat)
    requires Enabled(s, step) && (step.IWake? || step.IRead? || step.IAck?) && At(s, c)
    ensures At(Next(s, step), c) && Enabled(Interrupted(s, c), step)
    ensures Next(Interrupted(s, c), step) == Interrupted(Next(s, step), c)
  {
  }

  lemma GetCommutes(s: State, c: nat)
    requires Enabled(s, IGet) && At(s, c)
    ensures At(GetChain(s), c) && GetChain(Interrupted(s, c)) == Interrupted(GetChain(s), c)
  {
    hide GetDescChain, ShapeOk, LinksOk, UsedIdOk;
  }

  lemma StatusCommutes(s: State, c: nat)
    requires Enabled(s, IStatus) && At(s, c) && Touched(s) != Some(c)
    ensures At(CopyStatus(s), c) && CopyStatus(Interrupted(s, c)) == Interrupted(CopyStatus(s), c)
  {
    var t := Interrupted(s, c);
    assert CopyStatus(t).contexts == Interrupted(CopyStatus(s), c).contexts;
  }

  lemma ValueCommutes(s: State, c: nat)
    requires Enabled(s, IValue) && At(s, c) && Touched(s) != Some(c)
    ensures At(CopyVal(s), c) && CopyVal(Interrupted(s, c)) == Interrupted(CopyVal(s), c)
  {
    var t := Interrupted(s, c);
    assert CopyVal(t).contexts == Interrupted(CopyVal(s), c).contexts;
  }

  lemma PostCommutes(s: State, c: nat)
    requires Enabled(s, IPost) && At(s, c) && Touched(s) != Some(c)
    ensures At(PostSem(s), c) && PostSem(Interrupted(s, c)) == Interrupted(PostSem(s), c)
  {
    var t := Interrupted(s, c);
    assert PostSem(t).contexts == Interrupted(PostSem(s), c).contexts;
  }

  lemma FreeCommutes(s: State, c: nat)
    requires Enabled(s, IFree) && At(s, c)
    ensures At(HandlerFree(s), c) && HandlerFree(Interrupted(s, c)) == Interrupted(HandlerFree(s), c)
  {
    hide FreeStep;
  }

  lemma BumpCommutes(s: State, d: nat, c: nat)
    requires Enabled(s, SBump(d)) && At(s, c) && d != c
    ensures At(Next(s, SBump(d)), c) && Enabled(Interrupted(s, c), SBump(d))
    ensures Next(Interrupted(s, c), SBump(d)) == Interrupted(Next(s, SBump(d)), c)
  {
    hide Next, BumpAvail;
    CallerNext(s, d);
    CallerNext(Interrupted(s, c), d);
    assert Publish(Interrupted(s, c), d).callers == Interrupted(Publish(s, d), c).callers;
  }

  /** While the handler is not at the caller's own chain it writes other contexts only. */
  lemma NotTouched(s: State, c: nat)
    requires At(s, c) && s.callers[c].Wait? && Handled(s.ist) != Some(s.callers[c].p)
    requires Inv(s)
    ensures Touched(s) != Some(c)
  {
    hide Inv;
    if Handled(s.ist).Some? {
      HandledInRange(s);
      StatusGoesTo(s);
      ContextSafetyCtx(s, Handled(s.ist).value);
    }
  }

  lemma HandledInRange(s: State)
    requires Handled(s.ist).Some?
    requires Inv(s)
    ensures Handled(s.ist).value < |s.h.published|
    ensures s.ist.CopyValue? || s.ist.Post? ==> s.ist.c == s.h.published[Handled(s.ist).value].caller
  {
    hide FreeOk, CallersOk, HandlerOk, FlightOk, StageOk, ServedOk, AvailOk, BumpOk, UsedOk, HolderOk;
    hide CallersMem, TicketsMem, HandlerMem, ContextsOk, HandOverOk, KickOk, CallerMem;
    HandledChain(s);
  }

  /** One step on the way to the caller's chain: the same with and without the interruption, and the caller waits on. */
  lemma StepTowards(s: State, step: Step, c: nat)
    requires At(s, c) && s.callers[c].Wait? && UnderWay(s, s.callers[c].p) && Handled(s.ist) != Some(s.callers[c].p)
    requires Enabled(s, step) && (ByCaller(step) ==> step.SBump?)
    requires Inv(s) && Inv(Next(s, step))
    ensures At(Next(s, step), c) && Next(s, step).callers[c] == s.callers[c] && UnderWay(Next(s, step), s.callers[c].p)
    ensures Enabled(Interrupted(s, c), step) && Next(Interrupted(s, c), step) == Interrupted(Next(s, step), c)
  {
    hide Inv, Next, UnderWay;
    NotTouched(s, c);
    WaiterFacts(s, c);
    ContextKept(s, step, c);
    if ByCaller(step) {
      CallerChanges(s, step);
      BumpCommutes(s, step.c, c);
    } else if ByDevice(step) {
      DeviceChanges(s, step);
      DeviceCommutes(s, step, c);
    } else {
      ThreadChanges(s, step);
      ThreadCommutes(s, step, c);
    }
    WaiterFacts(Next(s, step), c);
  }

  /** The handler's access to the context of a chain. */
  function Access(ist: Ist): Step {
    match ist
    case Found(_, _, _) => IStatus
    case CopyValue(_, _, _, _) => IValue
    case _ => IPost
  }

  /** If the handler is at the caller's chain, its next access is to a context that is gone. */
  lemma InterruptedFaults(s: State, c: nat)
    requires At(s, c) && s.callers[c].Wait? && Handled(s.ist) == Some(s.callers[c].p)
    requires Inv(s)
    ensures Enabled(Interrupted(s, c), Access(s.ist)) && Next(Interrupted(s, c), Access(s.ist)).fault
  {
    hide Inv, Next;
    WaiterFacts(s, c);
    HandledInRange(s);
    StatusGoesTo(s);
    ThreadNext(Interrupted(s, c));
  }

  /** Otherwise the device and the thread get there, and nothing on the way depends on the caller. */
  lemma {:induction false} RunToFault(s: State, c: nat) returns (steps: seq<Step>, s': State)
    requires At(s, c) && s.callers[c].Wait? && UnderWay(s, s.callers[c].p)
    requires Inv(s)
    ensures Leads(Interrupted(s, c), steps, s') && s'.fault
    decreases Rank(s)
  {
    hide Inv, Rank, Next, Enabled, Leads, UnderWay, Productive;
    RankNatural(s);
    if Handled(s.ist) == Some(s.callers[c].p) {
      InterruptedFaults(s, c);
      steps, s' := [Access(s.ist)], Next(Interrupted(s, c), Access(s.ist));
      Refinement.LeadsOne(Interrupted(s, c), Access(s.ist));
    } else {
      var step := WaitProgress(s, c, 0, 0);
      UnderWayUnsettled(s, s.callers[c].p);
      StepLowersRank(s, step);
      StepTowards(s, step, c);
      var s1, rest := Next(s, step), [];
      rest, s' := RunToFault(s1, c);
      steps := [step] + rest;
      Refinement.LeadsOne(Interrupted(s, c), step);
      Refinement.LeadsJoin(Interrupted(s, c), [step], Interrupted(s1, c), rest, s');
    }
  }

  lemma UnderWayUnsettled(s: State, p: nat)
    requires UnderWay(s, p)
    ensures !Settled(s.h.stage, s.ist, p)
  {
  }

  // ----- Exactly when it is harmless -----

  /** Some run from here ends in a fault. */
  ghost predicate CanFault(s: State) {
    exists steps, s' :: Leads(s, steps, s') && s'.fault
  }

  /** A wait interrupted after the semaphore was posted leaves a state in which everything proved of the protocol
      holds, now and on every run from there. Interrupted before, it leaves a chain in flight whose context is
      gone, and some run goes on to write to it. */
  lemma InterruptedWaitExact(s: State, c: nat)
    requires Reachable(s) && At(s, c) && s.callers[c].Wait?
    ensures c in s.contexts
    ensures Inv(Interrupted(s, c)) <==> s.contexts[c].sem > 0
    ensures AllContextsLive(Interrupted(s, c)) <==> s.contexts[c].sem > 0
    ensures CanFault(Interrupted(s, c)) <==> s.contexts[c].sem == 0
  {
    hide Reachable, Inv, AllContextsLive, UnderWay, Leads;
    ReachableInv(s);
    WaiterFacts(s, c);
    if s.contexts[c].sem > 0 {
      LateInterruption(s, c);
      InvLive(Interrupted(s, c));
      NeverFaultsFrom(Interrupted(s, c));
    } else {
      GoneIsDead(s, c, s.callers[c].p);
      var steps, s' := RunToFault(s, c);
      if Inv(Interrupted(s, c)) {
        NeverFaultsFrom(Interrupted(s, c));
      }
    }
  }

  lemma NeverFaultsFrom(s: State)
    requires Inv(s)
    ensures !CanFault(s)
    ensures forall steps, s' :: Leads(s, steps, s') ==> Inv(s') && AllContextsLive(s')
  {
    hide Inv, Leads, AllContextsLive;
    forall steps, s' | Leads(s, steps, s') ensures Inv(s') && AllContextsLive(s') && !s'.fault {
      RunInv(s, steps, s');
      InvLive(s');
      NoFault(s');
    }
  }

  /** It happens in the very first request: one caller, two descriptors, a wait interrupted before the device
      answers. */
  lemma InterruptedWitness() returns (s: State)
    ensures Reachable(s) && At(s, 0) && s.callers[0].Wait?
    ensures !AllContextsLive(Interrupted(s, 0)) && CanFault(Interrupted(s, 0))
  {
    hide Reachable, Leads, Inv, AllContextsLive, CanFault, Init, WF, SendRequest;
    var start := Refinement.StartsFromCreated(2, 1);
    StartIdle(start);
    var req := Request(MSG_GET_VALUE, 0, 0);
    Refinement.ReachableQueue(start);
    RequestPublishes(start.vq, req, 0, Mapped(1), Mapped(2));
    var steps;
    steps, s := Refinement.RequestRefines(start, 0, req, Mapped(1), Mapped(2));
    InterruptedWaitExact(s, 0);
  }

  lemma StartIdle(s: State)
    requires Init(s) && |s.callers| == 1 && s.vq == Virtqs.Empty(2)
    ensures s.callers[0].Idle? && s.lock.None? && |s.vq.free| == 2 && s.vq.mem == map[]
  {
  }
}
