/** Every call returns: once no new call starts, the protocol runs only finitely far, and where it stops
    every caller has its answer and every descriptor is free again. */
module Liveness {
  import opened Words
  import opened VirtqSpec
  import opened Protocol
  import opened Invariant
  import opened Frames
  import opened Reach
  import opened Safety
  import opened Changes
  import DeviceSteps

  /** Every step but a new call, and but a wake-up of the interrupt thread that no interrupt caused. */
  predicate Productive(s: State, step: Step) {
    !step.SBegin? && (step.IWake? ==> s.irq)
  }

  // ----- A rank that every productive step lowers -----

  function CallersRank(callers: seq<Caller>): nat {
    if callers == [] then 0
    else CallersRank(callers[..|callers| - 1]) + CallerRank(callers[|callers| - 1])
  }

  function DrainRank(irq: bool): nat {
    if irq then 21 else 6
  }

  function ThreadRank(ist: Ist, irq: bool): nat {
    match ist
    case Waiting => if irq then 20 else 5
    case Woken => if irq then 19 else 8
    case Ack(pending) => if pending then 18 else if irq then 22 else 7
    case Drain => DrainRank(irq)
    case Found(_, _, _) => DrainRank(irq) + 12
    case CopyValue(_, _, _, _) => DrainRank(irq) + 11
    case Post(_, _, _, _) => DrainRank(irq) + 10
    case Freeing(_, phase, rest) =>
      DrainRank(irq) + (if rest.Some? then 6 else 0) + match phase case Unmap => 3 case Clear => 2 case Give => 1
  }

  function ChainRank(h: History, dev: Device): int {
    41 * (|h.published| - dev.taken) + (dev.taken - |h.served|) + 38 * (dev.taken - |h.completed|)
    + 15 * (|h.completed| - h.collected) + (if dev.staged.None? then 1 else 0)
    + (if dev.mustRaise then 20 else 0) + (if dev.awake then 1 else 0)
  }

  function Rank(s: State): int {
    CallersRank(s.callers) + ThreadRank(s.ist, s.irq) + ChainRank(s.h, s.dev)
  }

  lemma {:induction false} CallersRankUpdate(callers: seq<Caller>, c: nat, pc: Caller)
    requires c < |callers|
    ensures CallersRank(callers[c := pc]) == CallersRank(callers) - CallerRank(callers[c]) + CallerRank(pc)
  {
    var n := |callers| - 1;
    if c == n {
      assert callers[c := pc][..n] == callers[..n];
    } else {
      assert callers[c := pc][..n] == callers[..n][c := pc];
      CallersRankUpdate(callers[..n], c, pc);
    }
  }

  lemma RankNatural(s: State)
    requires Inv(s)
    ensures Rank(s) >= 0
  {
    hide FreeOk, CallersOk, HandlerOk, FlightOk, AvailOk, BumpOk, UsedOk, HolderOk;
    hide CallersMem, TicketsMem, HandlerMem, ContextsOk, HandOverOk, KickOk, CallerMem;
    assert s.h.served.Keys <= Range(s.dev.taken) by {
      forall p | p in s.h.served ensures p in Range(s.dev.taken) {
        assert !s.h.stage[p].Queued?;
      }
    }
    SubsetSize(s.h.served.Keys, Range(s.dev.taken));
  }

  lemma CallerLowers(s: State, step: Step)
    requires Enabled(s, step) && ByCaller(step) && !step.SBegin? && !Next(s, step).fault
    ensures Rank(Next(s, step)) < Rank(s)
  {
    hide CallersRank, Next, Enabled;
    CallerChanges(s, step);
    CallersRankUpdate(s.callers, step.c, Next(s, step).callers[step.c]);
  }

  lemma DeviceLowers(s: State, step: Step)
    requires Enabled(s, step) && ByDevice(step) && !Next(s, step).fault
    requires step.DRespond? ==> step.p !in s.h.served
    ensures Rank(Next(s, step)) < Rank(s)
  {
    hide CallersRank, Next;
    DeviceChanges(s, step);
    var s' := Next(s, step);
    assert step.DRespond? ==> |s'.h.served| == |s.h.served| + 1;
  }

  lemma ThreadLowers(s: State, step: Step)
    requires Enabled(s, step) && ByThread(step) && Productive(s, step) && !Next(s, step).fault
    ensures Rank(Next(s, step)) < Rank(s)
  {
    hide CallersRank, Next;
    ThreadChanges(s, step);
  }

  lemma StepLowersRank(s: State, step: Step)
    requires Enabled(s, step) && Productive(s, step)
    requires Inv(s)
    ensures Rank(Next(s, step)) < Rank(s) && Inv(Next(s, step))
  {
    hide Inv, Rank, Enabled, Next;
    StepInv(s, step);
    NoFault(Next(s, step));
    AnsweredOnce(s, step);
    if ByCaller(step) {
      CallerLowers(s, step);
    } else if ByDevice(step) {
      DeviceLowers(s, step);
    } else {
      ThreadLowers(s, step);
    }
  }

  // ----- Somebody can always move while a caller is in a call -----

  /** While some caller is in a call, some productive step is enabled: nothing waits for ever. */
  lemma Progress(s: State, c: nat) returns (step: Step)
    requires At(s, c) && !s.callers[c].Idle?
    requires Inv(s)
    ensures Enabled(s, step) && Productive(s, step)
  {
    hide Inv;
    match s.callers[c]
    case Take(_, _) => step := STake(c);
    case MapIn(_, _, _) => step := SMapFail(c, ENOMEM);
    case FillIn(_, _, _, _) => step := SFill(c);
    case Write(_, _, _) => step := SWrite(c);
    case Tag(_, _, _) => step := STag(c);
    case Link(_, _, _) => step := SLink(c);
    case Ring(_, _, _) => step := UnlockOr(s, SRing(c));
    case Bump(_, _, _) => step := SBump(c);
    case Notify(_, _) => step := SNotify(c);
    case Undo(_, _, _) => step := SUndo(c);
    case Wait(_, p) => step := WaitProgress(s, c, 0, 0);
  }

  /** The lock is free, or its holder can release it. */
  lemma UnlockOr(s: State, want: Step) returns (step: Step)
    requires s.lock.None? ==> Enabled(s, want) && Productive(s, want)
    requires Inv(s)
    ensures Enabled(s, step) && Productive(s, step)
    ensures step == want || step.SBump?
  {
    hide FreeOk, CallersOk, HandlerOk, FlightOk, StageOk, ServedOk, AvailOk, UsedOk, HolderOk;
    hide CallersMem, TicketsMem, HandlerMem, ContextsOk, HandOverOk, KickOk, CallerMem;
    step := if s.lock.None? then want else SBump(s.lock.value);
  }

  /** The interrupt thread can move whenever it is past its wait. */
  lemma ThreadProgress(s: State) returns (step: Step)
    requires !s.ist.Waiting?
    requires Inv(s)
    ensures Enabled(s, step) && Productive(s, step)
    ensures !step.DRespond?
    ensures ByCaller(step) ==> step.SBump?
  {
    hide Inv;
    match s.ist
    case Woken => step := IRead;
    case Ack(_) => step := IAck;
    case Drain => step := UnlockOr(s, IGet);
    case Found(_, _, _) => step := IStatus;
    case CopyValue(_, _, _, _) => step := IValue;
    case Post(_, _, _, _) => step := IPost;
    case Freeing(_, _, _) => step := IFree;
  }

  /** A waiting caller: the way to its return. If the device is to answer, it answers as asked. */
  lemma WaitProgress(s: State, c: nat, status: u8, value: u8) returns (step: Step)
    requires At(s, c) && s.callers[c].Wait?
    requires Inv(s)
    ensures Enabled(s, step) && Productive(s, step)
    ensures ByCaller(step) ==> step.SBump? || (step == SWake(c) && Settled(s.h.stage, s.ist, s.callers[c].p))
    ensures step.DRespond? ==> step == DRespond(s.callers[c].p, status, value)
  {
    hide Inv, Enabled;
    var p := s.callers[c].p;
    WaitFacts(s, c);
    if Settled(s.h.stage, s.ist, p) {
      step := SWake(c);
      WakeEnabled(s, c);
    } else if !s.ist.Waiting? {
      step := ThreadProgress(s);
    } else if s.h.stage[p].Used? {
      step := SignalProgress(s, p);
    } else {
      step := DeviceProgress(s, c, p, status, value);
    }
  }

  lemma WakeEnabled(s: State, c: nat)
    requires At(s, c) && s.callers[c].Wait? && c in s.contexts && s.contexts[c].sem > 0
    ensures Enabled(s, SWake(c)) && Productive(s, SWake(c))
  {
  }

  lemma WaitFacts(s: State, c: nat)
    requires At(s, c) && s.callers[c].Wait?
    requires Inv(s)
    ensures var p := s.callers[c].p;
            && p < |s.h.stage| && p < |s.h.published| && s.h.published[p].caller == c
            && (Settled(s.h.stage, s.ist, p) ==> c in s.contexts && s.contexts[c].sem > 0)
            && (s.h.stage[p].Collected? && s.ist.Waiting? ==> Settled(s.h.stage, s.ist, p))
  {
    hide FreeOk, CallersOk, HandlerOk, FlightOk, StageOk, ServedOk, AvailOk, BumpOk, UsedOk, HolderOk;
    hide CallersMem, TicketsMem, HandlerMem, HandOverOk, KickOk, CallerMem;
    assert CallerCtx(c, s.callers[c], s.contexts, s.h.published, s.h.stage, s.h.served, s.ist);
  }

  /** A completion waits while the thread waits: its interrupt wakes the thread. */
  lemma SignalProgress(s: State, p: nat) returns (step: Step)
    requires p < |s.h.stage| && s.h.stage[p].Used? && s.ist.Waiting?
    requires Inv(s)
    ensures Enabled(s, step) && Productive(s, step)
    ensures !step.DRespond?
    ensures ByCaller(step) ==> step.SBump?
  {
    hide FreeOk, CallersOk, HandlerOk, FlightOk, ServedOk, AvailOk, BumpOk, UsedOk, HolderOk;
    hide CallersMem, TicketsMem, HandlerMem, ContextsOk, HandOverOk, KickOk, CallerMem;
    step := if s.irq then IWake else DRaise;
  }

  /** A chain the device has not completed: it is awake to take it, or works on it. */
  lemma DeviceProgress(s: State, c: nat, p: nat, status: u8, value: u8) returns (step: Step)
    requires At(s, c) && s.callers[c].Wait? && p < |s.h.stage| && p < |s.h.published| && s.h.published[p].caller == c
    requires s.h.stage[p].Queued? || s.h.stage[p].Working?
    requires Inv(s)
    ensures Enabled(s, step) && Productive(s, step)
    ensures step.DRespond? ==> step == DRespond(p, status, value)
    ensures ByCaller(step) ==> step.SBump?
  {
    hide Inv;
    if s.h.stage[p].Queued? {
      QueuedAwake(s, c, p);
      step := DTake;
    } else {
      WorkingKnown(s, p);
      if !s.dev.work[p].done {
        step := DRespond(p, status, value);
      } else if s.dev.staged.None? {
        step := DStage(p);
      } else {
        step := DPublish;
      }
    }
  }

  lemma QueuedAwake(s: State, c: nat, p: nat)
    requires At(s, c) && s.callers[c].Wait? && p < |s.h.stage| && p < |s.h.published| && s.h.published[p].caller == c
    requires s.h.stage[p].Queued?
    requires Inv(s)
    ensures s.dev.awake && s.vq.availIdx != s.dev.taken % WORD
  {
    hide FreeOk, CallersOk, HandlerOk, FlightOk, StageOk, ServedOk, AvailOk, BumpOk, UsedOk, HolderOk;
    hide CallersMem, TicketsMem, HandlerMem, ContextsOk, HandOverOk, KickOk, CallerMem;
    InvShape(s);
    QueuedBeyond(s, p);
    DeviceSteps.SleepCount(s);
    AsleepNotified(s, p);
  }

  lemma QueuedBeyond(s: State, p: nat)
    requires StageOk(s.h.stage, s.dev, s.h.completed, s.h.collected) && p < |s.h.stage| && s.h.stage[p].Queued?
    ensures s.dev.taken <= p
  {
  }

  lemma AsleepNotified(s: State, p: nat)
    requires KickOk(s.dev.awake, s.dev.taken, s.h.published, s.callers) && s.dev.taken <= p < |s.h.published|
    ensures !s.dev.awake ==> s.h.published[p].caller < |s.callers| && s.callers[s.h.published[p].caller].Notify?
  {
  }

  lemma WorkingKnown(s: State, p: nat)
    requires p < |s.h.stage| && s.h.stage[p].Working?
    requires Inv(s)
    ensures p in s.dev.work
  {
    hide FreeOk, CallersOk, HandlerOk, FlightOk, ServedOk, AvailOk, BumpOk, UsedOk, HolderOk;
    hide CallersMem, TicketsMem, HandlerMem, ContextsOk, HandOverOk, KickOk, CallerMem;
  }

  // ----- How long a run can be -----

  /** What the two other kinds of step add to the rank. */
  lemma BeginRaises(s: State, step: Step)
    requires Enabled(s, step) && step.SBegin?
    ensures Rank(Next(s, step)) == Rank(s) + 60
  {
    hide CallersRank, ThreadRank, Next;
    CallerChanges(s, step);
    CallersRankUpdate(s.callers, step.c, Take(step.req, None));
  }

  lemma SpuriousRaises(s: State, step: Step)
    requires Enabled(s, step) && step.IWake? && !s.irq && !Next(s, step).fault
    ensures Rank(Next(s, step)) == Rank(s) + 3
  {
    hide CallersRank, Next;
    ThreadChanges(s, step);
  }

  /** New calls in a run. */
  function Calls(steps: seq<Step>): nat {
    if steps == [] then 0 else (if steps[0].SBegin? then 1 else 0) + Calls(steps[1..])
  }

  /** Wake-ups in a run that no interrupt caused. */
  ghost function SpuriousWakes(s: State, steps: seq<Step>): nat
    decreases |steps|
  {
    if steps == [] || !Enabled(s, steps[0]) then 0
    else (if steps[0].IWake? && !s.irq then 1 else 0) + SpuriousWakes(Next(s, steps[0]), steps[1..])
  }

  lemma StepBudget(s: State, step: Step)
    requires Enabled(s, step)
    requires Inv(s)
    ensures Rank(Next(s, step)) + 1 <= Rank(s) + (if step.SBegin? then 61 else if step.IWake? && !s.irq then 4 else 0)
    ensures Inv(Next(s, step))
  {
    hide Inv, Rank, Enabled, Next;
    if step.SBegin? {
      BeginRaises(s, step);
      StepInv(s, step);
    } else if step.IWake? && !s.irq {
      StepInv(s, step);
      NoFault(Next(s, step));
      SpuriousRaises(s, step);
    } else {
      StepLowersRank(s, step);
    }
  }

  /** Every step of every run is paid for by the rank it starts from, its new calls and its spurious wake-ups. */
  lemma {:induction false} RunsEnd(s: State, steps: seq<Step>, s': State)
    requires Leads(s, steps, s')
    requires Inv(s)
    ensures Inv(s') && |steps| <= Rank(s) - Rank(s') + 61 * Calls(steps) + 4 * SpuriousWakes(s, steps)
    decreases |steps|
  {
    hide Inv, Rank, Next, Enabled;
    if steps != [] {
      StepBudget(s, steps[0]);
      RunsEnd(Next(s, steps[0]), steps[1..], s');
    }
  }

  /** No productive step is left. */
  ghost predicate Stuck(s: State) {
    forall step :: Enabled(s, step) ==> !Productive(s, step)
  }

  /** From any reachable state a run of the protocol takes at most `Rank` steps, 61 more for every call that begins
      in it and 4 more for every spurious wake-up. Where nothing but those two can happen, every call has
      returned, every completion was delivered, every descriptor is free and no buffer is mapped. */
  lemma EveryCallReturns(s: State, steps: seq<Step>, s': State)
    requires Reachable(s) && Leads(s, steps, s')
    ensures |steps| <= Rank(s) + 61 * Calls(steps) + 4 * SpuriousWakes(s, steps)
    ensures Stuck(s') ==> forall c: nat :: c < |s'.callers| ==> s'.callers[c].Idle?
    ensures Stuck(s') ==> s'.h.delivered == s'.h.completed && |s'.h.completed| == |s'.h.published|
    ensures Stuck(s') ==> |s'.vq.free| == s'.vq.num && s'.vq.mem == map[]
  {
    hide Reachable, Inv, Rank, Leads, Enabled, Productive, Calls, SpuriousWakes;
    ReachableInv(s);
    RunsEnd(s, steps, s');
    RankNatural(s');
    RunReachable(s, steps, s');
    if Stuck(s') {
      StuckIdle(s');
      RestsClean(s');
    }
  }

  lemma StuckIdle(s: State)
    requires Stuck(s)
    requires Inv(s)
    ensures forall c: nat :: c < |s.callers| ==> s.callers[c].Idle?
    ensures HeldByHandler(s.ist) == {}
  {
    hide Inv, Enabled, Productive;
    forall c: nat | c < |s.callers| ensures s.callers[c].Idle? {
      if !s.callers[c].Idle? {
        var step := Progress(s, c);
      }
    }
    if !s.ist.Waiting? {
      var step := ThreadProgress(s);
    }
  }

  lemma {:induction false} RunReachable(s: State, steps: seq<Step>, s': State)
    requires Reachable(s) && Leads(s, steps, s')
    ensures Reachable(s')
    decreases |steps|
  {
    hide Reachable, Next, Enabled;
    if steps != [] {
      ReachableNext(s, steps[0]);
      RunReachable(Next(s, steps[0]), steps[1..], s');
    }
  }
}
