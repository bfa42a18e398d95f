/** What each step changes outside the descriptor table: one small lemma a step, about the function that performs
    it, and one for all. What later files say about runs rests on these and does not open the steps again. */
module Changes {
  import opened Words
  import opened VirtqSpec
  import opened Protocol

  predicate ByCaller(step: Step) {
    || step.SBegin? || step.STake? || step.SMap? || step.SMapFail? || step.SFill? || step.SWrite? || step.STag?
    || step.SLink? || step.SRing? || step.SBump? || step.SNotify? || step.SWake? || step.SUndo?
  }

  predicate ByDevice(step: Step) {
    step.DTake? || step.DRespond? || step.DStage? || step.DPublish? || step.DRaise? || step.DSleep?
  }

  predicate ByThread(step: Step) {
    || step.IWake? || step.IRead? || step.IAck? || step.IGet?
    || step.IStatus? || step.IValue? || step.IPost? || step.IFree?
  }

  /** The steps that write the descriptor table. */
  predicate WritesTable(s: State, step: Step) {
    match step
    case SFill(c) => true
    case STag(c) => true
    case SLink(c) => true
    case SUndo(c) => At(s, c) && s.callers[c].Undo? && s.callers[c].phase.Clear?
    case IFree => s.ist.Freeing? && s.ist.phase.Clear?
    case _ => false
  }

  predicate TableDoes(s: State, s': State, step: Step) {
    && s'.vq.num == s.vq.num
    && (WritesTable(s, step) ==> s'.h.owner == s.h.owner)
    && (!WritesTable(s, step) ==> s'.vq.desc == s.vq.desc && s'.vq.extras == s.vq.extras)
  }

  /** How far a caller is from the end of its call; a published chain is worth more to the chains than one step. */
  function CallerRank(pc: Caller): nat {
    match pc
    case Idle(_) => 0
    case Wait(_, _) => 1
    case Notify(_, _) => 3
    case Undo(_, Unmap, _) => 3
    case Undo(_, Clear, _) => 2
    case Undo(_, Give, _) => 1
    case Bump(_, _, _) => 50
    case Ring(_, _, _) => 51
    case Link(_, _, _) => 52
    case Tag(_, _, _) => 53
    case Write(_, _, _) => 54
    case FillIn(_, first, _, _) => if first.Some? then 55 else 58
    case MapIn(_, first, _) => if first.Some? then 56 else 59
    case Take(_, first) => if first.Some? then 57 else 60
  }

  /** What a caller's step may add to the rank of the chains. */
  function Added(step: Step): nat {
    if step.SBump? then 41 else if step.SNotify? then 1 else 0
  }

  // ----- A caller's steps -----

  ghost predicate CallerDoes(s: State, s': State, step: Step)
    requires ByCaller(step)
  {
    var c := step.c;
    && TableDoes(s, s', step)
    && At(s, c) && |s'.callers| == |s.callers| && s'.callers == s.callers[c := s'.callers[c]]
    && s'.ist == s.ist && s'.irq == s.irq
    && s'.dev == (if step.SNotify? then s.dev.(awake := true) else s.dev)
    && s'.contexts - {c} == s.contexts - {c}
    && s.h.published <= s'.h.published && |s'.h.published| == |s.h.published| + (if step.SBump? then 1 else 0)
    && s'.h.completed == s.h.completed && s'.h.collected == s.h.collected
    && s'.h.delivered == s.h.delivered && s'.h.served == s.h.served
    && (!s'.fault && !step.SBegin? ==> CallerRank(s'.callers[c]) + Added(step) < CallerRank(s.callers[c]))
    && (step.SBegin? ==> s'.callers[c] == Take(step.req, None))
  }

  lemma BeginDoes(s: State, c: nat, req: Buffer)
    requires Enabled(s, SBegin(c, req))
    ensures CallerDoes(s, Begin(s, c, req), SBegin(c, req))
  {
  }

  lemma TakeDoes(s: State, c: nat)
    requires Enabled(s, STake(c))
    ensures CallerDoes(s, TakeDesc(s, c), STake(c))
  {
  }

  lemma MapDoes(s: State, c: nat, b: nat)
    requires Enabled(s, SMap(c, b))
    ensures CallerDoes(s, MapDesc(s, c, b), SMap(c, b))
  {
  }

  lemma MapFailDoes(s: State, c: nat, err: Errno)
    requires Enabled(s, SMapFail(c, err))
    ensures CallerDoes(s, MapFail(s, c, err), SMapFail(c, err))
  {
  }

  lemma FillDoes(s: State, c: nat)
    requires Enabled(s, SFill(c))
    ensures CallerDoes(s, Fill(s, c), SFill(c))
  {
  }

  lemma WriteDoes(s: State, c: nat)
    requires Enabled(s, SWrite(c))
    ensures CallerDoes(s, WriteRequest(s, c), SWrite(c))
  {
  }

  lemma TagDoes(s: State, c: nat)
    requires Enabled(s, STag(c))
    ensures CallerDoes(s, TagContext(s, c), STag(c))
  {
  }

  lemma LinkDoes(s: State, c: nat)
    requires Enabled(s, SLink(c))
    ensures CallerDoes(s, LinkPair(s, c), SLink(c))
  {
    hide LinkChain;
  }

  lemma RingDoes(s: State, c: nat)
    requires Enabled(s, SRing(c))
    ensures CallerDoes(s, WriteRing(s, c), SRing(c))
  {
  }

  lemma PublishDoes(s: State, c: nat)
    requires Enabled(s, SBump(c))
    ensures CallerDoes(s, Publish(s, c), SBump(c))
  {
  }

  lemma NotifyDoes(s: State, c: nat)
    requires Enabled(s, SNotify(c))
    ensures CallerDoes(s, NotifyDevice(s, c), SNotify(c))
  {
  }

  lemma WakeDoes(s: State, c: nat)
    requires Enabled(s, SWake(c))
    ensures CallerDoes(s, Wake(s, c), SWake(c))
  {
  }

  lemma UndoDoes(s: State, c: nat)
    requires Enabled(s, SUndo(c))
    ensures CallerDoes(s, UndoStep(s, c), SUndo(c))
  {
    hide FreeStep;
    if InTable(s.vq, s.callers[c].i) {
      FreeStepDoes(s.vq, s.h, s.callers[c].i, s.callers[c].phase);
    }
  }

  /** Freeing concerns descriptors and buffers only. */
  lemma FreeStepDoes(vq: Vq, h: History, i: nat, phase: Phase)
    requires InTable(vq, i)
    ensures var (vq', h', more) := FreeStep(vq, h, i, phase);
            && vq'.num == vq.num
            && (phase.Clear? ==> h'.owner == h.owner)
            && (!phase.Clear? ==> vq'.desc == vq.desc && vq'.extras == vq.extras)
            && h'.published == h.published && h'.completed == h.completed && h'.collected == h.collected
            && h'.delivered == h.delivered && h'.served == h.served && (more ==> !phase.Give?)
  {
  }

  /** And only the one descriptor. */
  lemma FreeStepEntry(vq: Vq, h: History, i: nat, phase: Phase, j: nat)
    requires InTable(vq, i) && InTable(vq, j) && j != i
    ensures var (vq', _, _) := FreeStep(vq, h, i, phase);
            InTable(vq', j) && vq'.desc[j] == vq.desc[j] && vq'.extras[j] == vq.extras[j]
  {
  }

  lemma CallerChanges(s: State, step: Step)
    requires Enabled(s, step) && ByCaller(step)
    ensures CallerDoes(s, Next(s, step), step)
  {
    hide Begin, TakeDesc, MapDesc, MapFail, Fill, WriteRequest, TagContext, LinkPair, WriteRing, Publish;
    hide NotifyDevice, Wake, UndoStep, CallerDoes, Enabled;
    match step
    case SBegin(c, req) => BeginDoes(s, c, req);
    case STake(c) => TakeDoes(s, c);
    case SMap(c, b) => MapDoes(s, c, b);
    case SMapFail(c, err) => MapFailDoes(s, c, err);
    case SFill(c) => FillDoes(s, c);
    case SWrite(c) => WriteDoes(s, c);
    case STag(c) => TagDoes(s, c);
    case SLink(c) => LinkDoes(s, c);
    case SRing(c) => RingDoes(s, c);
    case SBump(c) => PublishDoes(s, c);
    case SNotify(c) => NotifyDoes(s, c);
    case SWake(c) => WakeDoes(s, c);
    case SUndo(c) => UndoDoes(s, c);
  }

  // ----- The device's steps -----

  ghost predicate DeviceDoes(s: State, s': State, step: Step) {
    && TableDoes(s, s', step)
    && s'.callers == s.callers && s'.contexts == s.contexts && s'.ist == s.ist
    && s'.h.published == s.h.published && s'.h.collected == s.h.collected && s'.h.delivered == s.h.delivered
    && s.h.completed <= s'.h.completed
    && |s'.h.completed| == |s.h.completed| + (if step.DPublish? then 1 else 0)
    && (!step.DRespond? ==> s'.h.served == s.h.served)
    && (step.DRespond? && !s'.fault ==>
           step.p in s'.h.served && s'.h.served == s.h.served[step.p := s'.h.served[step.p]])
    && (step.DRespond? && !s'.fault ==>
          s'.h.served[step.p].status == step.status && s'.h.served[step.p].value == step.value)
    && (!s'.fault ==> s'.dev.taken == s.dev.taken + if step.DTake? then 1 else 0)
    && (!s'.fault ==> s'.dev.staged.None? == if step.DStage? then false else if step.DPublish? then true
         else s.dev.staged.None?)
    && s'.irq == (s.irq || step.DRaise?)
    && (s'.dev.mustRaise ==> !step.DRaise? && (s.dev.mustRaise || step.DPublish?))
    && s'.dev.awake == (s.dev.awake && !step.DSleep?)
  }

  lemma DevTakeDoes(s: State)
    requires Enabled(s, DTake)
    ensures DeviceDoes(s, DevTake(s), DTake)
  {
  }

  lemma DevRespondDoes(s: State, p: nat, status: nat, value: nat)
    requires Enabled(s, DRespond(p, status, value))
    ensures DeviceDoes(s, DevRespond(s, p, status, value), DRespond(p, status, value))
  {
  }

  lemma DevStageDoes(s: State, p: nat)
    requires Enabled(s, DStage(p))
    ensures DeviceDoes(s, DevStage(s, p), DStage(p))
  {
  }

  lemma DevPublishDoes(s: State)
    requires Enabled(s, DPublish)
    ensures DeviceDoes(s, DevPublish(s), DPublish)
  {
  }

  lemma SignalsDo(s: State, step: Step)
    requires Enabled(s, step) && (step.DRaise? || step.DSleep?)
    ensures DeviceDoes(s, Next(s, step), step)
  {
  }

  lemma DeviceChanges(s: State, step: Step)
    requires Enabled(s, step) && ByDevice(step)
    ensures DeviceDoes(s, Next(s, step), step)
  {
    hide DevTake, DevRespond, DevStage, DevPublish, DeviceDoes, Enabled;
    match step
    case DTake => DevTakeDoes(s);
    case DRespond(p, status, value) => DevRespondDoes(s, p, status, value);
    case DStage(p) => DevStageDoes(s, p);
    case DPublish => DevPublishDoes(s);
    case _ => SignalsDo(s, step);
  }

  // ----- The interrupt thread's steps -----

  /** The context the thread is about to write. */
  function Touched(s: State): Option<nat> {
    match s.ist
    case Found(i0, _, _) => if InTable(s.vq, i0) then s.vq.extras[i0].context else None
    case CopyValue(_, _, c, _) => Some(c)
    case Post(_, _, c, _) => Some(c)
    case _ => None
  }

  predicate NextPosition(s: State, s': State, step: Step) {
    match step
    case IWake => s.ist.Waiting? && s'.ist == Woken
    case IRead => s.ist.Woken? && s'.ist == Ack(s.irq)
    case IAck => s.ist.Ack? && s'.ist == Drain
    case IGet => s.ist.Drain? && (s'.ist.Waiting? || s'.ist.Found?)
    case IStatus => s.ist.Found? && s'.ist.CopyValue?
    case IValue => s.ist.CopyValue? && s'.ist.Post?
    case IPost => s.ist.Post? && s'.ist == Freeing(s.ist.i0, Unmap, Some(s.ist.i1))
    case IFree =>
      && s.ist.Freeing?
      && (|| (s.ist.phase.Unmap? && s'.ist == Freeing(s.ist.i, Clear, s.ist.rest))
          || (s.ist.phase.Clear? && s'.ist == Freeing(s.ist.i, Give, s.ist.rest))
          || s'.ist == match s.ist.rest case None => Drain case Some(i1) => Freeing(i1, Unmap, None))
    case _ => true
  }

  ghost predicate ThreadDoes(s: State, s': State, step: Step) {
    && TableDoes(s, s', step)
    && s'.callers == s.callers && s'.dev == s.dev
    && s'.h.published == s.h.published && s'.h.completed == s.h.completed && s'.h.served == s.h.served
    && s'.irq == (if step.IAck? && s.ist.Ack? then s.irq && !s.ist.pending else s.irq)
    && s'.contexts.Keys == s.contexts.Keys
    && (forall c :: c in s.contexts && Touched(s) != Some(c) ==> s'.contexts[c] == s.contexts[c])
    && s.h.delivered <= s'.h.delivered
    && (!s'.fault ==>
          && NextPosition(s, s', step)
          && s'.h.collected == s.h.collected + (if s'.ist.Found? then 1 else 0)
          && |s'.h.delivered| == |s.h.delivered| + (if step.IPost? then 1 else 0))
  }

  lemma GetDoes(s: State)
    requires Enabled(s, IGet)
    ensures ThreadDoes(s, GetChain(s), IGet)
  {
    hide Walk, EndsWithin, LinksOk, NextUsedHead;
  }

  lemma StatusDoes(s: State)
    requires Enabled(s, IStatus)
    ensures ThreadDoes(s, CopyStatus(s), IStatus)
  {
  }

  lemma ValueDoes(s: State)
    requires Enabled(s, IValue)
    ensures ThreadDoes(s, CopyVal(s), IValue)
  {
  }

  lemma PostDoes(s: State)
    requires Enabled(s, IPost)
    ensures ThreadDoes(s, PostSem(s), IPost)
  {
  }

  lemma FreeDoes(s: State)
    requires Enabled(s, IFree)
    ensures ThreadDoes(s, HandlerFree(s), IFree)
  {
    hide FreeStep;
    if InTable(s.vq, s.ist.i) {
      FreeStepDoes(s.vq, s.h, s.ist.i, s.ist.phase);
    }
  }

  lemma WakesDo(s: State, step: Step)
    requires Enabled(s, step) && (step.IWake? || step.IRead? || step.IAck?)
    ensures ThreadDoes(s, Next(s, step), step)
  {
    hide InTable;
  }

  lemma ThreadChanges(s: State, step: Step)
    requires Enabled(s, step) && ByThread(step)
    ensures ThreadDoes(s, Next(s, step), step)
  {
    hide GetChain, CopyStatus, CopyVal, PostSem, HandlerFree, ThreadDoes, Enabled;
    match step
    case IGet => GetDoes(s);
    case IStatus => StatusDoes(s);
    case IValue => ValueDoes(s);
    case IPost => PostDoes(s);
    case IFree => FreeDoes(s);
    case _ => WakesDo(s, step);
  }

  lemma TableChanges(s: State, step: Step)
    requires Enabled(s, step)
    ensures TableDoes(s, Next(s, step), step)
  {
    hide Next, Enabled;
    if ByCaller(step) {
      CallerChanges(s, step);
    } else if ByDevice(step) {
      DeviceChanges(s, step);
    } else {
      ThreadChanges(s, step);
    }
  }

  /** A step of caller `c`. */
  predicate Steps(step: Step, c: nat) {
    ByCaller(step) && step.c == c
  }

  /** Nobody else moves a caller. */
  lemma OtherStep(s: State, step: Step, c: nat)
    requires Enabled(s, step) && !Steps(step, c) && At(s, c)
    ensures At(Next(s, step), c) && Next(s, step).callers[c] == s.callers[c]
  {
    hide Next, Enabled;
    if ByCaller(step) {
      CallerChanges(s, step);
    } else if ByDevice(step) {
      DeviceChanges(s, step);
    } else {
      ThreadChanges(s, step);
    }
  }

  // ----- The step that comes next -----

  /** The step a caller takes next is decided by where it stands. */
  lemma CallerNext(s: State, c: nat)
    requires At(s, c)
    ensures s.callers[c].Take? ==> Enabled(s, STake(c)) && Next(s, STake(c)) == TakeDesc(s, c)
    ensures forall b: nat {:trigger SMap(c, b)} :: s.callers[c].MapIn? && b != 0 && b !in s.vq.mem ==>
              Enabled(s, SMap(c, b)) && Next(s, SMap(c, b)) == MapDesc(s, c, b)
    ensures forall err {:trigger SMapFail(c, err)} :: s.callers[c].MapIn? && err != EOK ==>
              Enabled(s, SMapFail(c, err)) && Next(s, SMapFail(c, err)) == MapFail(s, c, err)
    ensures s.callers[c].FillIn? ==> Enabled(s, SFill(c)) && Next(s, SFill(c)) == Fill(s, c)
    ensures s.callers[c].Write? ==> Enabled(s, SWrite(c)) && Next(s, SWrite(c)) == WriteRequest(s, c)
    ensures s.callers[c].Tag? ==> Enabled(s, STag(c)) && Next(s, STag(c)) == TagContext(s, c)
    ensures s.callers[c].Link? ==> Enabled(s, SLink(c)) && Next(s, SLink(c)) == LinkPair(s, c)
    ensures s.callers[c].Ring? && s.lock.None? ==> Enabled(s, SRing(c)) && Next(s, SRing(c)) == WriteRing(s, c)
    ensures s.callers[c].Bump? ==> Enabled(s, SBump(c)) && Next(s, SBump(c)) == Publish(s, c)
    ensures s.callers[c].Undo? ==> Enabled(s, SUndo(c)) && Next(s, SUndo(c)) == UndoStep(s, c)
  {
    hide TakeDesc, MapDesc, MapFail, Fill, WriteRequest, TagContext, LinkPair, WriteRing, Publish, UndoStep;
  }

  /** So is the step of the interrupt thread. */
  lemma ThreadNext(s: State)
    ensures s.ist.Drain? && s.lock.None? ==> Enabled(s, IGet) && Next(s, IGet) == GetChain(s)
    ensures s.ist.Found? ==> Enabled(s, IStatus) && Next(s, IStatus) == CopyStatus(s)
    ensures s.ist.CopyValue? ==> Enabled(s, IValue) && Next(s, IValue) == CopyVal(s)
    ensures s.ist.Post? ==> Enabled(s, IPost) && Next(s, IPost) == PostSem(s)
    ensures s.ist.Freeing? ==> Enabled(s, IFree) && Next(s, IFree) == HandlerFree(s)
  {
    hide CopyStatus, CopyVal, PostSem, GetChain, HandlerFree;
  }
}
