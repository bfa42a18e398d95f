/** Runs that never end, with callers arriving for ever: if every actor that can move eventually does, every call
    returns. What fairness asks of the lock, of the scheduler and of the device is explicit. */
module Fairness {
  import opened Words
  import opened VirtqSpec
  import opened Protocol
  import opened Invariant
  import opened Reach
  import opened Safety
  import opened Changes
  import opened Delivery
  import Liveness

  // ----- Infinite runs -----

  /** `state(n)` is the state after `n` steps, `act(n)` the step taken there. */
  ghost predicate Run(state: nat -> State, act: nat -> Step) {
    && Reachable(state(0))
    && forall n: nat :: Enabled(state(n), act(n)) && state(n + 1) == Next(state(n), act(n))
  }

  /** Caller `c` has a step of its own to take, unless it is still to get the queue lock. */
  predicate Wants(s: State, c: nat) {
    && At(s, c) && !s.callers[c].Idle?
    && (s.callers[c].Wait? ==> c in s.contexts && s.contexts[c].sem > 0)
  }

  /** Caller `c` is scheduled, and gets the queue lock: whenever it wants to move it eventually does. */
  ghost predicate CallerFair(state: nat -> State, act: nat -> Step, c: nat) {
    forall n: nat :: Wants(state(n), c) ==> exists m: nat :: n <= m && Steps(act(m), c)
  }

  /** The interrupt thread moves again and again. */
  ghost predicate ThreadFair(act: nat -> Step) {
    forall n: nat :: ThreadMoves(act, n)
  }

  ghost predicate ThreadMoves(act: nat -> Step, n: nat) {
    exists m: nat :: n <= m && ByThread(act(m))
  }

  /** The device completes every chain that a caller waits for. */
  ghost predicate DeviceFair(state: nat -> State) {
    forall n: nat, p: nat {:trigger DoneLater(state, n, p)} :: p < |state(n).h.published| ==> DoneLater(state, n, p)
  }

  ghost predicate DoneLater(state: nat -> State, n: nat, p: nat) {
    exists m: nat :: n <= m && p in state(m).h.completed
  }

  lemma {:induction false} RunReachable(state: nat -> State, act: nat -> Step, n: nat)
    requires Run(state, act)
    ensures Reachable(state(n)) && Enabled(state(n), act(n)) && state(n + 1) == Next(state(n), act(n))
  {
    hide Reachable, Enabled, Next;
    if n > 0 {
      RunReachable(state, act, n - 1);
      ReachableNext(state(n - 1), act(n - 1));
    }
  }

  // ----- The thread delivers what is completed -----

  lemma StepNears(s: State, step: Step, j: nat)
    requires Reachable(s) && Enabled(s, step) && j < |s.h.completed|
    ensures var s' := Next(s, step);
            && j < |s'.h.completed| && s'.h.completed[j] == s.h.completed[j]
            && StepsLeft(s', j) <= StepsLeft(s, j)
            && (ByThread(step) && StepsLeft(s, j) > 0 ==> StepsLeft(s', j) < StepsLeft(s, j))
  {
    hide Reachable, Inv, Next, Enabled, StepsLeft;
    ReachableInv(s);
    HistoryGrows(s, step);
    if !ByThread(step) {
      OthersKeep(s, step, j);
    } else if |s.h.delivered| <= j {
      ThreadNears(s, step, j);
    } else {
      AlreadyThere(s, j);
      AlreadyThere(Next(s, step), j);
    }
  }

  /** Over any stretch of the run nothing moves away. */
  lemma {:induction false} StaysNear(state: nat -> State, act: nat -> Step, n: nat, m: nat, j: nat)
    requires Run(state, act) && n <= m && j < |state(n).h.completed|
    ensures j < |state(m).h.completed| && state(m).h.completed[j] == state(n).h.completed[j]
    ensures StepsLeft(state(m), j) <= StepsLeft(state(n), j)
    decreases m - n
  {
    hide Run, StepsLeft, Reachable, Next, Enabled;
    if n < m {
      RunReachable(state, act, n);
      StepNears(state(n), act(n), j);
      StaysNear(state, act, n + 1, m, j);
    }
  }

  lemma {:induction false} EventuallyDelivered(state: nat -> State, act: nat -> Step, n: nat, j: nat) returns (m: nat)
    requires Run(state, act) && ThreadFair(act) && j < |state(n).h.completed|
    ensures n <= m && j < |state(m).h.delivered|
    decreases StepsLeft(state(n), j)
  {
    hide Run, StepsLeft, Reachable, Inv, Next, Enabled;
    RunReachable(state, act, n);
    ReachableInv(state(n));
    if StepsLeft(state(n), j) == 0 {
      NoneLeft(state(n), j);
      m := n;
    } else {
      assert ThreadMoves(act, n);
      var k: nat :| n <= k && ByThread(act(k));
      StaysNear(state, act, n, k, j);
      RunReachable(state, act, k);
      StepNears(state(k), act(k), j);
      m := EventuallyDelivered(state, act, k + 1, j);
    }
  }

  // ----- A caller gets on -----

  /** Until its own next step nobody moves a caller. */
  lemma {:induction false} StaysPut(state: nat -> State, act: nat -> Step, n: nat, m: nat, c: nat)
    requires Run(state, act) && n <= m && At(state(n), c) && forall k: nat :: n <= k < m ==> !Steps(act(k), c)
    ensures At(state(m), c) && state(m).callers[c] == state(n).callers[c]
    decreases m - n
  {
    hide Run, Reachable, Next, Enabled;
    if n < m {
      RunReachable(state, act, n);
      OtherStep(state(n), act(n), c);
      StaysPut(state, act, n + 1, m, c);
    }
  }

  /** The first own step from `n` on. */
  lemma {:induction false} FirstStep(act: nat -> Step, c: nat, n: nat, m: nat) returns (k: nat)
    requires n <= m && Steps(act(m), c)
    ensures n <= k <= m && Steps(act(k), c) && forall i: nat :: n <= i < k ==> !Steps(act(i), c)
    decreases m - n
  {
    if Steps(act(n), c) {
      k := n;
    } else {
      k := FirstStep(act, c, n + 1, m);
    }
  }

  lemma OwnStepLowers(s: State, step: Step, c: nat)
    requires Reachable(s) && Enabled(s, step) && Steps(step, c) && At(s, c) && !s.callers[c].Idle?
    ensures At(Next(s, step), c) && CallerRank(Next(s, step).callers[c]) < CallerRank(s.callers[c])
    ensures s.callers[c].Wait? ==> Next(s, step).callers[c].Idle?
  {
    hide Reachable, Inv, Next, CallerRank;
    ReachableInv(s);
    StepInv(s, step);
    NoFault(Next(s, step));
    CallerChanges(s, step);
    if s.callers[c].Wait? {
      RankZero(s, step, c);
    }
  }

  lemma RankZero(s: State, step: Step, c: nat)
    requires Enabled(s, step) && At(Next(s, step), c)
    requires At(s, c) && s.callers[c].Wait? && CallerRank(Next(s, step).callers[c]) < CallerRank(s.callers[c])
    ensures Next(s, step).callers[c].Idle?
  {
    hide Next;
  }

  /** A caller that builds its request gets to its wait, or its call fails. */
  lemma {:induction false} EventuallyWaits(state: nat -> State, act: nat -> Step, c: nat, n: nat) returns (m: nat)
    requires Run(state, act) && CallerFair(state, act, c) && At(state(n), c)
    ensures n <= m && At(state(m), c) && (state(m).callers[c].Idle? || state(m).callers[c].Wait?)
    decreases CallerRank(state(n).callers[c])
  {
    hide Run, Reachable, Next, Enabled, CallerRank;
    if state(n).callers[c].Idle? || state(n).callers[c].Wait? {
      m := n;
    } else {
      assert Wants(state(n), c);
      var k := NextOwnStep(state, act, c, n);
      m := EventuallyWaits(state, act, c, k + 1);
    }
  }

  /** Where the caller's next own step takes it. */
  lemma NextOwnStep(state: nat -> State, act: nat -> Step, c: nat, n: nat) returns (k: nat)
    requires Run(state, act) && CallerFair(state, act, c) && Wants(state(n), c)
    ensures n <= k && At(state(k + 1), c) && CallerRank(state(k + 1).callers[c]) < CallerRank(state(n).callers[c])
    ensures state(n).callers[c].Wait? ==> state(k + 1).callers[c].Idle?
  {
    hide Run, Reachable, Next, Enabled, CallerRank;
    var later: nat :| n <= later && Steps(act(later), c);
    k := FirstStep(act, c, n, later);
    StaysPut(state, act, n, k, c);
    RunReachable(state, act, k);
    OwnStepLowers(state(k), act(k), c);
  }

  lemma IndexOf(s: seq<nat>, p: nat) returns (j: nat)
    requires p in s
    ensures j < |s| && s[j] == p
  {
    j :| j < |s| && s[j] == p;
  }

  /** A completion that was handed over has posted its caller. */
  lemma DeliveredSettles(s: State, j: nat)
    requires j < |s.h.delivered|
    requires Inv(s)
    ensures j < |s.h.completed| && Settled(s.h.stage, s.ist, s.h.completed[j])
  {
    hide FreeOk, CallersOk, HandlerOk, FlightOk, ServedOk, AvailOk, BumpOk, UsedOk, HolderOk, CallersMem, TicketsMem;
    hide HandlerMem, ContextsOk, KickOk, CallerMem;
    assert s.h.stage[s.h.completed[j]] == Collected(j);
    if Handled(s.ist).Some? {
      assert s.h.stage[s.h.completed[s.h.collected - 1]] == Collected(s.h.collected - 1);
    }
  }

  /** A caller that still waits when its chain was handed over is free to return. */
  lemma DeliveredWants(s: State, c: nat, j: nat)
    requires Reachable(s) && At(s, c) && s.callers[c].Wait? && j < |s.h.delivered| && j < |s.h.completed|
    requires s.h.completed[j] == s.callers[c].p
    ensures Wants(s, c)
  {
    hide Reachable, Inv;
    ReachableInv(s);
    DeliveredSettles(s, j);
    Liveness.WaitFacts(s, c);
  }

  /** A call that waits for its answer returns in the end, or is free to. */
  lemma EventuallyPosted(state: nat -> State, act: nat -> Step, c: nat, n: nat) returns (m: nat)
    requires Run(state, act) && ThreadFair(act) && DeviceFair(state)
    requires At(state(n), c) && state(n).callers[c].Wait?
    ensures n <= m && At(state(m), c)
    ensures state(m).callers[c].Idle? || (state(m).callers[c].Wait? && Wants(state(m), c))
  {
    hide Run, Reachable, Inv, Next, Enabled, StepsLeft;
    var p := state(n).callers[c].p;
    RunReachable(state, act, n);
    ReachableInv(state(n));
    Liveness.WaitFacts(state(n), c);
    assert DoneLater(state, n, p);
    var k: nat :| n <= k && p in state(k).h.completed;
    var j := IndexOf(state(k).h.completed, p);
    m := EventuallyDelivered(state, act, k, j);
    StaysNear(state, act, k, m, j);
    if i: nat :| n <= i < m && Steps(act(i), c) {
      var first := FirstStep(act, c, n, i);
      StaysPut(state, act, n, first, c);
      RunReachable(state, act, first);
      OwnStepLowers(state(first), act(first), c);
      m := first + 1;
    } else {
      StaysPut(state, act, n, m, c);
      RunReachable(state, act, m);
      DeliveredWants(state(m), c, j);
    }
  }

  /** With callers arriving for ever: if a caller is scheduled and gets the lock, the thread keeps running and the
      device answers, then every call of that caller ends, at some later point of the run. */
  lemma EveryFairCallReturns(state: nat -> State, act: nat -> Step, c: nat, n: nat) returns (m: nat)
    requires Run(state, act) && CallerFair(state, act, c) && ThreadFair(act) && DeviceFair(state)
    requires At(state(n), c)
    ensures n <= m && At(state(m), c) && state(m).callers[c].Idle?
  {
    hide Run, CallerFair, ThreadFair, DeviceFair;
    m := EventuallyWaits(state, act, c, n);
    if state(m).callers[c].Wait? {
      m := EventuallyPosted(state, act, c, m);
      if !state(m).callers[c].Idle? {
        var k := NextOwnStep(state, act, c, m);
        m := k + 1;
      }
    }
  }
}
