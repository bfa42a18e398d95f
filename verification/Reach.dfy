/** Every reachable state of the protocol satisfies the invariant. */
module Reach {
  import opened Words
  import opened VirtqSpec
  import opened Protocol
  import opened Invariant
  import opened Frames
  import CallerSteps
  import DeviceSteps
  import HandlerSteps

  lemma InitInv(s: State)
    requires Init(s)
    ensures Inv(s)
  {
    hide FreeOk, CallersOk, HandlerOk, FlightOk, StageOk, ServedOk, AvailOk, BumpOk, UsedOk, HolderOk;
    hide CallersMem, TicketsMem, HandlerMem, ContextsOk, HandOverOk, KickOk, CallerMem;
    hide Init;
    InitOwners(s);
    InitHistory(s);
    InitMemory(s);
    InitCallers(s);
  }

  lemma InitOwners(s: State)
    requires Init(s)
    ensures !s.fault && TableOk(s.vq, s.h.owner)
    ensures FreeOk(s.vq.free, s.h.owner, s.vq.desc, s.vq.extras)
    ensures CallersOk(s.callers, s.h.owner) && HandlerOk(s.ist, s.h.owner)
    ensures FlightOk(s.h.published, s.h.stage, s.h.collected, s.h.owner)
  {
    AllFree(s.h.owner);
    forall i: nat | i < |s.h.owner| ensures i in s.vq.free {
      assert s.vq.free[i] == i;
    }
  }

  lemma InitHistory(s: State)
    requires Init(s)
    ensures StageOk(s.h.stage, s.dev, s.h.completed, s.h.collected)
    ensures ServedOk(s.h.published, s.h.stage, s.dev.work, s.h.served)
    ensures AvailOk(s.vq.num, s.vq.availIdx, s.vq.availRing, s.h.published, s.dev.taken)
    ensures UsedOk(s.vq.num, s.vq.usedIdx, s.vq.usedRing, s.vq.lastSeen, s.h.published, s.h.completed, s.h.collected,
            s.dev)
    ensures KickOk(s.dev.awake, s.dev.taken, s.h.published, s.callers)
    ensures IrqOk(|s.h.completed|, s.h.collected, s.irq, s.dev.mustRaise, s.ist)
  {
  }

  lemma InitMemory(s: State)
    requires Init(s)
    ensures HolderOk(MemoryOf(s), s.callers) && CallersMem(MemoryOf(s), s.callers)
    ensures TicketsMem(MemoryOf(s), s.h.published, s.h.stage, s.h.served)
    ensures HandlerMem(MemoryOf(s), s.ist, s.h.published, s.h.served)
  {
  }

  lemma InitCallers(s: State)
    requires Init(s)
    ensures BumpOk(s.vq.num, s.vq.availRing, |s.h.published|, s.callers, s.lock)
    ensures ContextsOk(s.callers, s.contexts, s.h.published, s.h.stage, s.h.served, s.ist)
    ensures HandOverOk(s.ist, s.contexts, s.h.stage, s.h.completed, s.h.collected, s.h.served, s.h.delivered)
  {
  }

  /** Whoever steps next, the invariant survives. */
  lemma StepInv(s: State, step: Step)
    requires Enabled(s, step)
    requires Inv(s)
    ensures Inv(Next(s, step))
  {
    hide Inv;
    match step
    case SBegin(c, req) => CallerSteps.BeginInv(s, c, req);
    case STake(c) => CallerSteps.TakeInv(s, c);
    case SMap(c, b) => CallerSteps.MapInv(s, c, b);
    case SMapFail(c, err) => CallerSteps.MapFailInv(s, c, err);
    case SFill(c) => CallerSteps.FillInv(s, c);
    case SWrite(c) => CallerSteps.WriteInv(s, c);
    case STag(c) => CallerSteps.TagInv(s, c);
    case SLink(c) => CallerSteps.LinkInv(s, c);
    case SRing(c) => CallerSteps.RingInv(s, c);
    case SBump(c) => CallerSteps.PublishInv(s, c);
    case SNotify(c) => CallerSteps.NotifyInv(s, c);
    case SWake(c) => CallerSteps.WakeInv(s, c);
    case SUndo(c) => CallerSteps.UndoInv(s, c);
    case DTake => DeviceSteps.TakeInv(s);
    case DRespond(p, status, value) => DeviceSteps.RespondInv(s, p, status, value);
    case DStage(p) => DeviceSteps.StageInv(s, p);
    case DPublish => DeviceSteps.PublishInv(s);
    case DRaise => DeviceSteps.RaiseInv(s);
    case DSleep => DeviceSteps.SleepInv(s);
    case IWake => HandlerSteps.WakeInv(s);
    case IRead => HandlerSteps.ReadInv(s);
    case IAck => HandlerSteps.AckInv(s);
    case IGet => HandlerSteps.GetInv(s);
    case IStatus => HandlerSteps.StatusInv(s);
    case IValue => HandlerSteps.ValueInv(s);
    case IPost => HandlerSteps.PostInv(s);
    case IFree => HandlerSteps.FreeInv(s);
  }

  lemma {:induction false} RunInv(s: State, steps: seq<Step>, s': State)
    requires Leads(s, steps, s')
    requires Inv(s)
    ensures Inv(s')
    decreases |steps|
  {
    hide Inv;
    if steps != [] {
      StepInv(s, steps[0]);
      RunInv(Next(s, steps[0]), steps[1..], s');
    }
  }

  lemma ReachableInv(s: State)
    requires Reachable(s)
    ensures Inv(s)
  {
    hide Inv, Init;
    var s0, steps :| Init(s0) && Leads(s0, steps, s);
    InitInv(s0);
    RunInv(s0, steps, s);
  }

  lemma {:induction false} LeadsOneMore(s: State, steps: seq<Step>, s': State, step: Step)
    requires Leads(s, steps, s') && Enabled(s', step)
    ensures Leads(s, steps + [step], Next(s', step))
    decreases |steps|
  {
    hide Next, Enabled;
    if steps == [] {
      assert [step][1..] == [];
      assert Leads(Next(s', step), [], Next(s', step));
      assert ([] + [step]) == [step];
    } else {
      LeadsOneMore(Next(s, steps[0]), steps[1..], s', step);
      assert (steps + [step])[1..] == steps[1..] + [step];
    }
  }

  lemma ReachableNext(s: State, step: Step)
    requires Reachable(s) && Enabled(s, step)
    ensures Reachable(Next(s, step))
  {
    hide Init, Next, Enabled, Leads;
    var s0, steps :| Init(s0) && Leads(s0, steps, s);
    LeadsOneMore(s0, steps, s, step);
  }
}
