/** The device registers behind the device lock, src/virtio/virtio.c:50-97, 132-207 and 242-291: any number of
    threads change the status register and operate on queues through the one queue selector. Between a thread's
    register accesses other threads may run. src/gpio/gpio.c:465-485 decides when the device handle appears. */
module DeviceBus {
  import opened Words

  const ACKNOWLEDGE: bv8 := 1
  const DRIVER: bv8 := 2
  const DRIVER_OK: bv8 := 4
  const FEATURES_OK: bv8 := 8

  // ----- Calls -----

  datatype QueueOp = StartReset | PollReset | Notify | Enable(on: bool) | MaxSize | SetSize(size: nat)

  datatype Call = AddStatus(bits: bv8) | OnQueue(q: nat, op: QueueOp)

  // ----- Registers -----

  /** What the device keeps for one queue. */
  datatype Queue = Queue(max: nat, size: nat, ready: bool, resetting: nat, kicks: nat)

  datatype Regs = Regs(status: bv8, selected: nat, queues: seq<Queue>)

  function Operate(x: Queue, op: QueueOp): Queue {
    match op
    case StartReset => x.(resetting := 1)
    case Notify => x.(kicks := x.kicks + 1)
    case Enable(on) => x.(ready := on)
    case SetSize(size) => x.(size := size)
    case PollReset => x
    case MaxSize => x
  }

  function Answer(x: Queue, op: QueueOp): nat {
    match op
    case PollReset => x.resetting
    case MaxSize => x.max
    case _ => 0
  }

  /** An access to a queue register reaches the queue named by the selector. A notification carries its own index. */
  function Target(regs: Regs, q: nat, op: QueueOp): nat {
    if op.Notify? then q else regs.selected
  }

  function OperateAt(queues: seq<Queue>, q: nat, op: QueueOp): (r: seq<Queue>)
    ensures |r| == |queues|
  {
    if q < |queues| then queues[q := Operate(queues[q], op)] else queues
  }

  function ClearAt(queues: seq<Queue>, q: nat): (r: seq<Queue>)
    ensures |r| == |queues|
  {
    if q < |queues| then queues[q := queues[q].(resetting := 0)] else queues
  }

  function AnswerAt(queues: seq<Queue>, q: nat, op: QueueOp): nat {
    if q < |queues| then Answer(queues[q], op) else 0
  }

  // ----- Threads -----

  /** Where a thread stands in a call. */
  datatype Thread =
    | Outside
    | Asking(call: Call)
    | Inside(call: Call)
    | GotStatus(bits: bv8, seen: bv8)
    | Chosen(q: nat, op: QueueOp)
    | Leaving(call: Call, answer: nat)

  /** A status update or a queue operation as its caller asked for it and was answered, or the device finishing a
      queue reset. */
  datatype Event = Added(bits: bv8) | Done(q: nat, op: QueueOp, answer: nat) | Cleared(q: nat)

  /** `events` records what was asked for, in the order it took effect. Thread 0 is the one that initialises the
      device: `started` counts its calls, `marks` says where in `events` each of them took effect, and `handle` that
      it handed the device out. */
  datatype Bus = Bus(regs: Regs, lock: Option<nat>, threads: seq<Thread>, started: nat, handle: bool,
                     events: seq<Event>, marks: seq<nat>)

  datatype Step =
    | Begin(t: nat, call: Call)
    | Lock(t: nat)
    | ReadStatus(t: nat)
    | WriteStatus(t: nat)
    | Select(t: nat)
    | Act(t: nat)
    | Unlock(t: nat)
    | HandOut
    | DeviceClears(q: nat)

  /** The calls of the initialising thread, with `polls` reads of the queue's reset register. */
  function InitCalls(size: nat, polls: nat): (r: seq<Call>)
    ensures |r| == polls + 8
  {
    [AddStatus(ACKNOWLEDGE), AddStatus(DRIVER), AddStatus(FEATURES_OK), OnQueue(0, MaxSize), OnQueue(0, StartReset)]
    + seq(polls, _ => OnQueue(0, PollReset))
    + [OnQueue(0, SetSize(size)), OnQueue(0, Enable(true)), AddStatus(DRIVER_OK)]
  }

  predicate Is(s: Bus, t: nat) {
    t < |s.threads|
  }

  /** A thread other than the first may call anything, but notify only through the handle. */
  predicate Allowed(s: Bus, prog: seq<Call>, t: nat, call: Call) {
    if t == 0 && s.started < |prog| then call == prog[s.started]
    else call.OnQueue? && call.op.Notify? ==> s.handle
  }

  predicate Enabled(s: Bus, prog: seq<Call>, step: Step) {
    match step
    case Begin(t, call) => Is(s, t) && s.threads[t].Outside? && Allowed(s, prog, t, call)
    case Lock(t) => Is(s, t) && s.threads[t].Asking? && s.lock.None?
    case ReadStatus(t) => Is(s, t) && s.threads[t].Inside? && s.threads[t].call.AddStatus?
    case WriteStatus(t) => Is(s, t) && s.threads[t].GotStatus?
    case Select(t) => Is(s, t) && s.threads[t].Inside? && s.threads[t].call.OnQueue?
    case Act(t) => Is(s, t) && s.threads[t].Chosen?
    case Unlock(t) => Is(s, t) && s.threads[t].Leaving?
    case HandOut => |s.threads| > 0 && s.threads[0].Outside? && s.started == |prog|
    case DeviceClears(q) => q < |s.regs.queues|
  }

  function Goto(s: Bus, t: nat, x: Thread): Bus
    requires Is(s, t)
  {
    s.(threads := s.threads[t := x])
  }

  /** The next effect is one of the initialisation's if the first thread makes it and has calls left. */
  function Marked(s: Bus, prog: seq<Call>, t: nat): seq<nat> {
    if t == 0 && |s.marks| < |prog| then s.marks + [|s.events|] else s.marks
  }

  function Next(s: Bus, prog: seq<Call>, step: Step): Bus
    requires Enabled(s, prog, step)
  {
    match step
    case Begin(t, call) =>
      Goto(s, t, Asking(call)).(started := if t == 0 && s.started < |prog| then s.started + 1 else s.started)
    case Lock(t) => Goto(s, t, Inside(s.threads[t].call)).(lock := Some(t))
    case ReadStatus(t) => Goto(s, t, GotStatus(s.threads[t].call.bits, s.regs.status))
    case WriteStatus(t) =>
      var x := s.threads[t];
      Goto(s, t, Leaving(AddStatus(x.bits), 0)).(
        regs := s.regs.(status := x.seen | x.bits),
        events := s.events + [Added(x.bits)], marks := Marked(s, prog, t))
    case Select(t) =>
      Goto(s, t, Chosen(s.threads[t].call.q, s.threads[t].call.op)).(regs := s.regs.(selected := s.threads[t].call.q))
    case Act(t) =>
      var x := s.threads[t];
      var target := Target(s.regs, x.q, x.op);
      var answer := AnswerAt(s.regs.queues, target, x.op);
      Goto(s, t, Leaving(OnQueue(x.q, x.op), answer)).(
        regs := s.regs.(queues := OperateAt(s.regs.queues, target, x.op)),
        events := s.events + [Done(x.q, x.op, answer)], marks := Marked(s, prog, t))
    case Unlock(t) => Goto(s, t, Outside).(lock := None)
    case HandOut => s.(handle := true)
    case DeviceClears(q) =>
      s.(regs := s.regs.(queues := ClearAt(s.regs.queues, q)), events := s.events + [Cleared(q)])
  }

  // ----- Runs -----

  /** After the reset: no status bit set, nobody in a call, the handle not given out. */
  predicate Init(s: Bus) {
    && s.regs.status == 0 && s.lock.None? && s.started == 0 && !s.handle
    && s.events == [] && s.marks == []
    && forall t: nat :: t < |s.threads| ==> s.threads[t].Outside?
  }

  /** An initialisation that notifies nobody and ends by adding DRIVER_OK. */
  predicate Orderly(prog: seq<Call>) {
    && prog != [] && prog[|prog| - 1] == AddStatus(DRIVER_OK)
    && forall k: nat :: k < |prog| ==> !Notifies(prog[k])
  }

  predicate Notifies(call: Call) {
    call.OnQueue? && call.op.Notify?
  }

  ghost predicate Leads(s: Bus, prog: seq<Call>, steps: seq<Step>, s': Bus)
    decreases |steps|
  {
    if steps == [] then s == s'
    else Enabled(s, prog, steps[0]) && Leads(Next(s, prog, steps[0]), prog, steps[1..], s')
  }

  /** `s` can arise from a device with queues `queues`. */
  ghost predicate Reachable(s: Bus, prog: seq<Call>, queues: seq<Queue>) {
    exists s0, steps :: Init(s0) && s0.regs.queues == queues && Leads(s0, prog, steps, s)
  }

  // ----- What the calls alone come to -----

  /** The OR of the bits of the status calls. */
  function OrAll(events: seq<Event>): bv8 {
    if events == [] then 0
    else
      var before := OrAll(events[..|events| - 1]);
      if events[|events| - 1].Added? then before | events[|events| - 1].bits else before
  }

  function Effect(queues: seq<Queue>, e: Event): (r: seq<Queue>)
    ensures |r| == |queues|
  {
    if e.Done? then OperateAt(queues, e.q, e.op) else if e.Cleared? then ClearAt(queues, e.q) else queues
  }

  /** The queues after the events, each applied to the queue its caller named. The selector plays no part. */
  function Replay(queues: seq<Queue>, events: seq<Event>): (r: seq<Queue>)
    ensures |r| == |queues|
  {
    if events == [] then queues
    else Effect(Replay(queues, events[..|events| - 1]), events[|events| - 1])
  }

  /** Each caller was answered for the queue it named. */
  ghost predicate AnswersRight(queues: seq<Queue>, events: seq<Event>) {
    forall k: nat :: k < |events| && events[k].Done? ==>
      events[k].answer == AnswerAt(Replay(queues, events[..k]), events[k].q, events[k].op)
  }

  // ----- The invariant -----

  predicate Holds(x: Thread) {
    x.Inside? || x.GotStatus? || x.Chosen? || x.Leaving?
  }

  predicate ThreadOk(regs: Regs, handle: bool, x: Thread) {
    && (x.GotStatus? ==> x.seen == regs.status)
    && (x.Chosen? ==> regs.selected == x.q && (x.op.Notify? ==> handle))
    && (x.Asking? || x.Inside? ==> Notifies(x.call) ==> handle)
  }

  /** The thread is inside this call and it has not taken effect yet. */
  predicate Doing(x: Thread, call: Call) {
    || x == Asking(call) || x == Inside(call)
    || (call.AddStatus? && x.GotStatus? && x.bits == call.bits)
    || (call.OnQueue? && x == Chosen(call.q, call.op))
  }

  /** `e` is the effect of this call. */
  predicate IsEffect(e: Event, call: Call) {
    match call
    case AddStatus(bits) => e == Added(bits)
    case OnQueue(q, op) => e.Done? && e.q == q && e.op == op
  }

  /** How far the initialisation has come: its calls took effect at the marks, in order, all but possibly the one
      it is in; the handle appears only after the last. */
  ghost predicate MarksOk(threads: seq<Thread>, started: nat, handle: bool, prog: seq<Call>, events: seq<Event>,
                          marks: seq<nat>) {
    && |marks| <= started <= |prog| && started <= |marks| + 1
    && (forall k: nat :: k < |marks| ==> marks[k] < |events| && IsEffect(events[marks[k]], prog[k]))
    && (forall j: nat, k: nat :: j < k < |marks| ==> marks[j] < marks[k])
    && (|threads| == 0 ==> started == 0)
    && (|threads| > 0 && started == |marks| + 1 ==> Doing(threads[0], prog[|marks|]))
    && (|threads| > 0 && started == |marks| < |prog| ==> threads[0].Outside? || threads[0].Leaving?)
    && (handle ==> |marks| == |prog|)
  }

  ghost predicate Inv(s: Bus, prog: seq<Call>, queues: seq<Queue>) {
    && (forall t: nat :: t < |s.threads| ==> (s.lock == Some(t) <==> Holds(s.threads[t])))
    && (s.lock.Some? ==> s.lock.value < |s.threads|)
    && (forall t: nat :: t < |s.threads| ==> ThreadOk(s.regs, s.handle, s.threads[t]))
    && s.regs.status == OrAll(s.events)
    && s.regs.queues == Replay(queues, s.events)
    && AnswersRight(queues, s.events)
    && MarksOk(s.threads, s.started, s.handle, prog, s.events, s.marks)
  }

  lemma InitInv(s: Bus, prog: seq<Call>)
    requires Init(s) && Orderly(prog)
    ensures Inv(s, prog, s.regs.queues)
  {
  }

  /** One more event at the end. */
  lemma EventsGrow(queues: seq<Queue>, events: seq<Event>, e: Event)
    requires AnswersRight(queues, events)
    requires e.Done? ==> e.answer == AnswerAt(Replay(queues, events), e.q, e.op)
    ensures AnswersRight(queues, events + [e])
    ensures Replay(queues, events + [e]) == Effect(Replay(queues, events), e)
    ensures OrAll(events + [e]) == if e.Added? then OrAll(events) | e.bits else OrAll(events)
  {
    var all := events + [e];
    assert all[..|events|] == events;
    forall k: nat | k < |all| && all[k].Done?
      ensures all[k].answer == AnswerAt(Replay(queues, all[..k]), all[k].q, all[k].op)
    {
      if k < |events| {
        assert all[..k] == events[..k];
      }
    }
  }

  lemma MarksKept(s: Bus, prog: seq<Call>, step: Step)
    requires MarksOk(s.threads, s.started, s.handle, prog, s.events, s.marks) && Enabled(s, prog, step)
    ensures var s' := Next(s, prog, step); MarksOk(s'.threads, s'.started, s'.handle, prog, s'.events, s'.marks)
  {
    hide OperateAt, ClearAt, AnswerAt, Target;
  }

  lemma EnterInv(s: Bus, prog: seq<Call>, queues: seq<Queue>, step: Step)
    requires Orderly(prog) && Inv(s, prog, queues) && Enabled(s, prog, step)
    requires step.Begin? || step.Lock? || step.Unlock? || step.HandOut?
    ensures Inv(Next(s, prog, step), prog, queues)
  {
    hide OrAll, Replay, AnswersRight, OperateAt, ClearAt, AnswerAt, Target, MarksOk;
    MarksKept(s, prog, step);
  }

  lemma StatusInv(s: Bus, prog: seq<Call>, queues: seq<Queue>, step: Step)
    requires Inv(s, prog, queues) && Enabled(s, prog, step) && (step.ReadStatus? || step.WriteStatus?)
    ensures Inv(Next(s, prog, step), prog, queues)
  {
    hide OrAll, Replay, AnswersRight, OperateAt, ClearAt, AnswerAt, Target, Notifies, MarksOk;
    MarksKept(s, prog, step);
    if step.WriteStatus? {
      EventsGrow(queues, s.events, Added(s.threads[step.t].bits));
    }
  }

  lemma SelectInv(s: Bus, prog: seq<Call>, queues: seq<Queue>, t: nat)
    requires Inv(s, prog, queues) && Enabled(s, prog, Select(t))
    ensures Inv(Next(s, prog, Select(t)), prog, queues)
  {
    hide OrAll, Replay, AnswersRight, OperateAt, ClearAt, AnswerAt, Target, MarksOk;
    MarksKept(s, prog, Select(t));
  }

  lemma ActInv(s: Bus, prog: seq<Call>, queues: seq<Queue>, t: nat)
    requires Inv(s, prog, queues) && Enabled(s, prog, Act(t))
    ensures Inv(Next(s, prog, Act(t)), prog, queues)
  {
    hide OrAll, Replay, AnswersRight, OperateAt, ClearAt, AnswerAt, Notifies, MarksOk;
    MarksKept(s, prog, Act(t));
    var x := s.threads[t];
    EventsGrow(queues, s.events, Done(x.q, x.op, AnswerAt(s.regs.queues, x.q, x.op)));
  }

  lemma ClearsInv(s: Bus, prog: seq<Call>, queues: seq<Queue>, q: nat)
    requires Inv(s, prog, queues) && Enabled(s, prog, DeviceClears(q))
    ensures Inv(Next(s, prog, DeviceClears(q)), prog, queues)
  {
    hide OrAll, Replay, AnswersRight, OperateAt, ClearAt, AnswerAt, Target, Notifies, MarksOk;
    MarksKept(s, prog, DeviceClears(q));
    EventsGrow(queues, s.events, Cleared(q));
  }

  lemma StepInv(s: Bus, prog: seq<Call>, queues: seq<Queue>, step: Step)
    requires Orderly(prog) && Inv(s, prog, queues) && Enabled(s, prog, step)
    ensures Inv(Next(s, prog, step), prog, queues)
  {
    hide Inv, Orderly, Next;
    match step
    case ReadStatus(_) => StatusInv(s, prog, queues, step);
    case WriteStatus(_) => StatusInv(s, prog, queues, step);
    case Select(t) => SelectInv(s, prog, queues, t);
    case Act(t) => ActInv(s, prog, queues, t);
    case DeviceClears(q) => ClearsInv(s, prog, queues, q);
    case _ => EnterInv(s, prog, queues, step);
  }

  lemma {:induction false} RunInv(s: Bus, prog: seq<Call>, queues: seq<Queue>, steps: seq<Step>, s': Bus)
    requires Orderly(prog) && Inv(s, prog, queues) && Leads(s, prog, steps, s')
    ensures Inv(s', prog, queues)
    decreases |steps|
  {
    hide Inv, Next, Enabled, Orderly;
    if steps != [] {
      StepInv(s, prog, queues, steps[0]);
      RunInv(Next(s, prog, steps[0]), prog, queues, steps[1..], s');
    }
  }

  lemma ReachableInv(s: Bus, prog: seq<Call>, queues: seq<Queue>)
    requires Orderly(prog) && Reachable(s, prog, queues)
    ensures Inv(s, prog, queues)
  {
    hide Inv, Init, Orderly;
    var s0, steps :| Init(s0) && s0.regs.queues == queues && Leads(s0, prog, steps, s);
    InitInv(s0, prog);
    RunInv(s0, prog, queues, steps, s);
  }

  // ----- Main results -----

  lemma {:induction false} AddedBits(events: seq<Event>, k: nat)
    requires k < |events| && events[k].Added?
    ensures OrAll(events) & events[k].bits == events[k].bits
  {
    var last := |events| - 1;
    var before := OrAll(events[..last]);
    if k < last {
      AddedBits(events[..last], k);
      if events[last].Added? {
        KeepsBits(before, events[last].bits, events[k].bits);
      }
    } else {
      KeepsBits(events[last].bits, before, events[last].bits);
    }
  }

  lemma KeepsBits(x: bv8, y: bv8, bits: bv8)
    ensures x & bits == bits ==> (x | y) & bits == bits && (y | x) & bits == bits
    ensures (x | y) | x == x | y
  {
  }

  /** No status update is lost: whatever the interleaving, the register is the OR of the bits of all the calls
      that wrote it, so each of them is still there. */
  lemma StatusNeverLost(s: Bus, prog: seq<Call>, queues: seq<Queue>)
    requires Orderly(prog) && Reachable(s, prog, queues)
    ensures s.regs.status == OrAll(s.events)
    ensures forall k: nat :: k < |s.events| && s.events[k].Added? ==>
              s.regs.status & s.events[k].bits == s.events[k].bits
  {
    ReachableInv(s, prog, queues);
    forall k: nat | k < |s.events| && s.events[k].Added?
      ensures s.regs.status & s.events[k].bits == s.events[k].bits
    {
      AddedBits(s.events, k);
    }
  }

  /** The status register only grows. */
  lemma StatusGrows(s: Bus, prog: seq<Call>, queues: seq<Queue>, step: Step)
    requires Orderly(prog) && Reachable(s, prog, queues) && Enabled(s, prog, step)
    ensures var s' := Next(s, prog, step); s'.regs.status | s.regs.status == s'.regs.status
  {
    hide Reachable;
    ReachableInv(s, prog, queues);
    if step.WriteStatus? {
      KeepsBits(s.regs.status, s.threads[step.t].bits, 0);
    }
  }

  /** The queues are what the operations make of them with the selector left out of account, and each caller was
      answered for the queue it named. */
  lemma SelectorPlaysNoPart(s: Bus, prog: seq<Call>, queues: seq<Queue>)
    requires Orderly(prog) && Reachable(s, prog, queues)
    ensures s.regs.queues == Replay(queues, s.events)
    ensures AnswersRight(queues, s.events)
    ensures forall t: nat :: t < |s.threads| && s.threads[t].Chosen? ==>
              Target(s.regs, s.threads[t].q, s.threads[t].op) == s.threads[t].q
  {
    hide Reachable, AnswersRight;
    ReachableInv(s, prog, queues);
  }

  /** The device is notified only after DRIVER_OK is in its status register. */
  lemma NotifyAfterDriverOk(s: Bus, prog: seq<Call>, queues: seq<Queue>, t: nat)
    requires Orderly(prog) && Reachable(s, prog, queues)
    requires Enabled(s, prog, Act(t)) && s.threads[t].op.Notify?
    ensures s.regs.status & 4 == 4
  {
    hide Reachable, AnswersRight;
    ReachableInv(s, prog, queues);
    AddedBits(s.events, s.marks[|prog| - 1]);
  }

  // ----- The initialisation can run through -----

  lemma InitReachable(s: Bus, prog: seq<Call>)
    requires s == Bus(s.regs, None, [Outside], 0, false, [], []) && s.regs.status == 0
    ensures Reachable(s, prog, s.regs.queues)
  {
    assert Init(s) && Leads(s, prog, [], s);
  }

  lemma {:induction false} LeadsOneMore(s: Bus, prog: seq<Call>, steps: seq<Step>, s': Bus, step: Step)
    requires Leads(s, prog, steps, s') && Enabled(s', prog, step)
    ensures Leads(s, prog, steps + [step], Next(s', prog, step))
    decreases |steps|
  {
    hide Next, Enabled;
    if steps == [] {
      assert [step][1..] == [] && [] + [step] == [step];
      assert Leads(Next(s', prog, step), prog, [], Next(s', prog, step));
    } else {
      LeadsOneMore(Next(s, prog, steps[0]), prog, steps[1..], s', step);
      assert (steps + [step])[1..] == steps[1..] + [step];
    }
  }

  lemma ReachableNext(s: Bus, prog: seq<Call>, queues: seq<Queue>, step: Step)
    requires Reachable(s, prog, queues) && Enabled(s, prog, step)
    ensures Reachable(Next(s, prog, step), prog, queues)
  {
    hide Init, Next, Enabled, Leads;
    var s0, steps :| Init(s0) && s0.regs.queues == queues && Leads(s0, prog, steps, s);
    LeadsOneMore(s0, prog, steps, s, step);
  }

  /** The first thread can make its next call when nobody holds the lock. */
  lemma OneCall(s: Bus, prog: seq<Call>, queues: seq<Queue>) returns (s': Bus)
    requires Reachable(s, prog, queues) && s.lock.None? && |s.threads| > 0 && s.threads[0].Outside?
             && s.started < |prog|
    ensures Reachable(s', prog, queues) && s'.lock.None? && |s'.threads| > 0 && s'.threads[0].Outside?
    ensures s'.started == s.started + 1 && |s'.events| == |s.events| + 1 && s.events <= s'.events
    ensures s'.marks == Marked(s, prog, 0)
  {
    hide Reachable, OperateAt, AnswerAt, Target;
    var call := prog[s.started];
    var middle := if call.AddStatus? then [ReadStatus(0), WriteStatus(0)] else [Select(0), Act(0)];
    ReachableNext(s, prog, queues, Begin(0, call));
    var s1 := Next(s, prog, Begin(0, call));
    ReachableNext(s1, prog, queues, Lock(0));
    var s2 := Next(s1, prog, Lock(0));
    ReachableNext(s2, prog, queues, middle[0]);
    var s3 := Next(s2, prog, middle[0]);
    ReachableNext(s3, prog, queues, middle[1]);
    var s4 := Next(s3, prog, middle[1]);
    ReachableNext(s4, prog, queues, Unlock(0));
    s' := Next(s4, prog, Unlock(0));
  }

  /** Everything that happened is a call of the initialisation. */
  predicate Alone(s: Bus) {
    |s.marks| == |s.events| == s.started && forall k: nat :: k < |s.marks| ==> s.marks[k] == k
  }

  lemma {:induction false} InitCompletes(s: Bus, prog: seq<Call>, queues: seq<Queue>) returns (s': Bus)
    requires Reachable(s, prog, queues) && s.lock.None? && |s.threads| > 0 && s.threads[0].Outside?
    requires s.started <= |prog| && Alone(s)
    ensures Reachable(s', prog, queues) && s'.handle && Alone(s')
    decreases |prog| - s.started
  {
    hide Reachable;
    if s.started == |prog| {
      ReachableNext(s, prog, queues, HandOut);
      s' := Next(s, prog, HandOut);
    } else {
      var s1 := OneCall(s, prog, queues);
      s' := InitCompletes(s1, prog, queues);
    }
  }

  /** The initialisation of the source is of that kind. */
  lemma InitCallsOrderly(size: nat, polls: nat)
    ensures Orderly(InitCalls(size, polls))
  {
    var prog := InitCalls(size, polls);
    assert forall k: nat :: 5 <= k < 5 + polls ==> prog[k] == OnQueue(0, PollReset);
  }
}
