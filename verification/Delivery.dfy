/** How soon a completion is handed over: a bound in steps of the interrupt thread that holds whatever new calls
    begin and whatever callers and device do in between. */
module Delivery {
  import opened Words
  import opened VirtqSpec
  import opened Protocol
  import opened Invariant
  import opened Frames
  import opened Reach
  import opened Safety
  import opened Changes

  /** The thread's steps to the next look at the used ring. */
  function ToLook(ist: Ist): nat {
    match ist
    case Waiting => 3
    case Woken => 2
    case Ack(_) => 1
    case Drain => 0
    case Found(_, _, _) => 9
    case CopyValue(_, _, _, _) => 8
    case Post(_, _, _, _) => 7
    case Freeing(_, phase, rest) =>
      (if rest.Some? then 3 else 0) + match phase case Unmap => 3 case Clear => 2 case Give => 1
  }

  /** The thread's steps to the post that ends the hand-over it is in. */
  function ToPost(ist: Ist): nat {
    match ist
    case Found(_, _, _) => 3
    case CopyValue(_, _, _, _) => 2
    case Post(_, _, _, _) => 1
    case _ => 0
  }

  /** At most this many steps of the thread remain until the completion counted `j` is handed over. */
  function StepsLeft(s: State, j: nat): nat {
    if j < |s.h.delivered| then 0
    else if j < s.h.collected then ToPost(s.ist)
    else ToLook(s.ist) + 10 * (j - s.h.collected) + 4
  }

  /** What the rest of the state tells about the thread's position. */
  lemma Counts(s: State)
    requires Inv(s)
    ensures s.h.collected <= |s.h.completed| && !s.fault
    ensures |s.h.delivered| == s.h.collected - (if Handled(s.ist).Some? then 1 else 0)
    ensures s.vq.usedIdx == s.vq.lastSeen <==> |s.h.completed| == s.h.collected
    ensures 2 * (|s.h.completed| - s.h.collected) <= s.vq.num
  {
    hide Inv;
    EmptyIsExactInv(s);
    DeliveredInv(s);
    NoFault(s);
  }

  /** Every step of the thread brings it nearer. */
  lemma ThreadNears(s: State, step: Step, j: nat)
    requires Enabled(s, step) && ByThread(step) && |s.h.delivered| <= j < |s.h.completed|
    requires Inv(s)
    ensures StepsLeft(Next(s, step), j) < StepsLeft(s, j)
  {
    hide Inv, Next, Enabled;
    StepInv(s, step);
    Counts(s);
    Counts(Next(s, step));
    ThreadChanges(s, step);
    if step.IGet? {
      LookCollects(s);
    }
  }

  /** A look at a ring that is not empty collects. */
  lemma LookCollects(s: State)
    requires Enabled(s, IGet) && !Next(s, IGet).fault
    requires Inv(s)
    ensures s.vq.usedIdx != s.vq.lastSeen ==> Next(s, IGet).ist.Found?
  {
    hide Inv, Next, GetDescChain, ShapeOk, LinksOk, UsedIdOk;
    Looks(s);
    ThreadNext(s);
  }

  lemma Looks(s: State)
    requires Inv(s)
    ensures ShapeOk(s.vq) && LinksOk(s.vq.desc) && UsedIdOk(s.vq)
    ensures s.vq.usedIdx != s.vq.lastSeen ==> GetDescChain(s.vq, CHAIN_ROOM).1 == EOK
  {
    hide Inv;
    InvShape(s);
    Counts(s);
    if s.vq.usedIdx != s.vq.lastSeen {
      CollectedInOrderInv(s);
    }
  }

  /** No other step changes how far the thread has to go. */
  lemma OthersKeep(s: State, step: Step, j: nat)
    requires Enabled(s, step) && !ByThread(step)
    ensures StepsLeft(Next(s, step), j) == StepsLeft(s, j)
  {
    hide Next, Enabled;
    if ByCaller(step) {
      CallerChanges(s, step);
    } else {
      DeviceChanges(s, step);
    }
  }

  function ThreadSteps(steps: seq<Step>): nat {
    if steps == [] then 0 else (if ByThread(steps[0]) then 1 else 0) + ThreadSteps(steps[1..])
  }

  lemma {:induction false} RunDelivers(s: State, steps: seq<Step>, s': State, j: nat)
    requires Reachable(s) && Leads(s, steps, s') && j < |s.h.completed| && StepsLeft(s, j) <= ThreadSteps(steps)
    ensures j < |s'.h.delivered| && s'.h.delivered[j] == s.h.completed[j]
    decreases |steps|
  {
    hide Reachable, Inv, Next, Enabled, StepsLeft;
    ReachableInv(s);
    DeliveredInv(s);
    if steps == [] {
      NoneLeft(s, j);
    } else {
      var s1 := Next(s, steps[0]);
      HistoryGrows(s, steps[0]);
      ReachableNext(s, steps[0]);
      if j < |s.h.delivered| {
        AlreadyThere(s1, j);
      } else if ByThread(steps[0]) {
        ThreadNears(s, steps[0], j);
      } else {
        OthersKeep(s, steps[0], j);
      }
      RunDelivers(s1, steps[1..], s', j);
    }
  }

  lemma AlreadyThere(s: State, j: nat)
    requires j < |s.h.delivered|
    ensures StepsLeft(s, j) == 0
  {
  }

  lemma NoneLeft(s: State, j: nat)
    requires StepsLeft(s, j) == 0
    requires Inv(s)
    ensures j < |s.h.delivered|
  {
    hide Inv;
    Counts(s);
  }

  /** A completion is handed over within 5 * num + 3 steps of the interrupt thread after the device published it,
      on every run: new calls, other completions and spurious wake-ups cannot hold it up. */
  lemma DeliveredSoon(s: State, steps: seq<Step>, s': State, j: nat)
    requires Reachable(s) && Leads(s, steps, s') && j < |s.h.completed|
    ensures s.h.collected <= j ==> StepsLeft(s, j) <= 10 * (j - s.h.collected) + 13
    ensures StepsLeft(s, j) <= 5 * s.vq.num + 3
    ensures ThreadSteps(steps) >= StepsLeft(s, j) ==> j < |s'.h.delivered| && s'.h.delivered[j] == s.h.completed[j]
  {
    hide Reachable, Inv, Leads;
    ReachableInv(s);
    Counts(s);
    if ThreadSteps(steps) >= StepsLeft(s, j) {
      RunDelivers(s, steps, s', j);
    }
  }
}
