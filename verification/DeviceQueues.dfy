/** What the queue registers hold and answer, read off the record of calls alone, and what the initialisation of
    src/gpio/gpio.c:465-485 and src/virtio/virtio.c:293-341 leaves behind. */
module DeviceQueues {
  import opened Words
  import opened DeviceBus

  // ----- What the record says about a queue -----

  predicate OnQ(e: Event, q: nat) {
    e.Done? && e.q == q
  }

  predicate Enables(e: Event, q: nat) {
    OnQ(e, q) && e.op.Enable?
  }

  predicate Sizes(e: Event, q: nat) {
    OnQ(e, q) && e.op.SetSize?
  }

  predicate Restarts(e: Event, q: nat) {
    OnQ(e, q) && e.op == StartReset
  }

  predicate Clears(e: Event, q: nat) {
    e == Cleared(q)
  }

  /** A reset of `q` is under way: one was started and the device has not finished it since, or one was under way
      at the start and never finished. */
  ghost predicate ResetPending(initial: bool, events: seq<Event>, q: nat) {
    || (exists i: nat :: i < |events| && Restarts(events[i], q) && Unfinished(events, i, q))
    || (initial && forall j: nat :: j < |events| ==> !Clears(events[j], q))
  }

  predicate Unfinished(events: seq<Event>, i: nat, q: nat) {
    forall j: nat :: i < j < |events| ==> !Clears(events[j], q)
  }

  /** `i` is the last event of its kind on `q`. */
  predicate LastEnable(events: seq<Event>, i: nat, q: nat) {
    i < |events| && Enables(events[i], q) && forall j: nat :: i < j < |events| ==> !Enables(events[j], q)
  }

  predicate LastSize(events: seq<Event>, i: nat, q: nat) {
    i < |events| && Sizes(events[i], q) && forall j: nat :: i < j < |events| ==> !Sizes(events[j], q)
  }

  function Notifications(events: seq<Event>, q: nat): nat {
    if events == [] then 0
    else
      var last := events[|events| - 1];
      Notifications(events[..|events| - 1], q) + if OnQ(last, q) && last.op == Notify then 1 else 0
  }

  /** What a queue that started as `x0` must be after the events. */
  ghost predicate QueueIs(x0: Queue, x: Queue, events: seq<Event>, q: nat) {
    && x.max == x0.max
    && EnableHolds(x0, x, events, q)
    && SizeHolds(x0, x, events, q)
    && (x.resetting != 0 <==> ResetPending(x0.resetting != 0, events, q))
    && x.kicks == x0.kicks + Notifications(events, q)
  }

  /** What a caller must be answered after the events. */
  ghost predicate AnswerIs(x0: Queue, events: seq<Event>, q: nat, op: QueueOp, answer: nat) {
    && (op.MaxSize? ==> answer == x0.max)
    && (op.PollReset? ==> (answer != 0 <==> ResetPending(x0.resetting != 0, events, q)))
  }

  // ----- The registers obey it -----

  /** What one event makes of a queue. */
  predicate OneEvent(x: Queue, x': Queue, e: Event, q: nat) {
    && x'.max == x.max
    && x'.ready == (if Enables(e, q) then e.op.on else x.ready)
    && x'.size == (if Sizes(e, q) then e.op.size else x.size)
    && (x'.resetting != 0 <==> Restarts(e, q) || (!Clears(e, q) && x.resetting != 0))
    && x'.kicks == x.kicks + (if OnQ(e, q) && e.op == Notify then 1 else 0)
  }

  lemma EffectStep(queues: seq<Queue>, e: Event, q: nat)
    requires q < |queues|
    ensures OneEvent(queues[q], Effect(queues, e)[q], e, q)
  {
  }

  lemma ReplayUnfolds(queues: seq<Queue>, events: seq<Event>, e: Event)
    ensures Replay(queues, events + [e]) == Effect(Replay(queues, events), e)
  {
    assert (events + [e])[..|events|] == events;
  }

  lemma ReplayStep(queues: seq<Queue>, events: seq<Event>, e: Event, q: nat)
    requires q < |queues|
    ensures OneEvent(Replay(queues, events)[q], Replay(queues, events + [e])[q], e, q)
  {
    hide Replay, Effect, OneEvent;
    ReplayUnfolds(queues, events, e);
    EffectStep(Replay(queues, events), e, q);
  }

  lemma EnableStep(events: seq<Event>, e: Event, q: nat, i: nat)
    requires LastEnable(events + [e], i, q)
    ensures if Enables(e, q) then i == |events| else LastEnable(events, i, q) && (events + [e])[i] == events[i]
  {
    var all := events + [e];
    assert all[|events|] == e;
    if !Enables(e, q) {
      assert i < |events| && all[i] == events[i];
      forall j: nat | i < j < |events| ensures !Enables(events[j], q) {
        assert !Enables(all[j], q);
      }
    }
  }

  /** `ready` is what the last event that sets it says. */
  ghost predicate EnableHolds(x0: Queue, x: Queue, events: seq<Event>, q: nat) {
    && (forall i: nat :: LastEnable(events, i, q) ==> x.ready == events[i].op.on)
    && ((forall i: nat :: i < |events| ==> !Enables(events[i], q)) ==> x.ready == x0.ready)
  }

  lemma {:induction false} EnableLaw(queues: seq<Queue>, events: seq<Event>, q: nat)
    requires q < |queues|
    ensures EnableHolds(queues[q], Replay(queues, events)[q], events, q)
  {
    if events != [] {
      var before, e := events[..|events| - 1], events[|events| - 1];
      hide EnableHolds;
      EnableLaw(queues, before, q);
      ReplayStep(queues, before, e, q);
      assert before + [e] == events;
      EnableLawStep(queues[q], Replay(queues, before)[q], Replay(queues, events)[q], before, e, q);
    }
  }

  lemma EnableLawStep(x0: Queue, x: Queue, x': Queue, before: seq<Event>, e: Event, q: nat)
    requires EnableHolds(x0, x, before, q) && x'.ready == if Enables(e, q) then e.op.on else x.ready
    ensures EnableHolds(x0, x', before + [e], q)
  {
    var events := before + [e];
    assert forall i: nat :: i < |before| ==> before[i] == events[i];
    assert events[|before|] == e;
    forall i: nat | LastEnable(events, i, q) ensures x'.ready == events[i].op.on {
      EnableStep(before, e, q, i);
    }
  }

  lemma SizeStep(events: seq<Event>, e: Event, q: nat, i: nat)
    requires LastSize(events + [e], i, q)
    ensures if Sizes(e, q) then i == |events| else LastSize(events, i, q) && (events + [e])[i] == events[i]
  {
    var all := events + [e];
    assert all[|events|] == e;
    if !Sizes(e, q) {
      assert i < |events| && all[i] == events[i];
      forall j: nat | i < j < |events| ensures !Sizes(events[j], q) {
        assert !Sizes(all[j], q);
      }
    }
  }

  /** `size` is what the last event that sets it says. */
  ghost predicate SizeHolds(x0: Queue, x: Queue, events: seq<Event>, q: nat) {
    && (forall i: nat :: LastSize(events, i, q) ==> x.size == events[i].op.size)
    && ((forall i: nat :: i < |events| ==> !Sizes(events[i], q)) ==> x.size == x0.size)
  }

  lemma {:induction false} SizeLaw(queues: seq<Queue>, events: seq<Event>, q: nat)
    requires q < |queues|
    ensures SizeHolds(queues[q], Replay(queues, events)[q], events, q)
  {
    if events != [] {
      var before, e := events[..|events| - 1], events[|events| - 1];
      hide SizeHolds;
      SizeLaw(queues, before, q);
      ReplayStep(queues, before, e, q);
      assert before + [e] == events;
      SizeLawStep(queues[q], Replay(queues, before)[q], Replay(queues, events)[q], before, e, q);
    }
  }

  lemma SizeLawStep(x0: Queue, x: Queue, x': Queue, before: seq<Event>, e: Event, q: nat)
    requires SizeHolds(x0, x, before, q) && x'.size == if Sizes(e, q) then e.op.size else x.size
    ensures SizeHolds(x0, x', before + [e], q)
  {
    var events := before + [e];
    assert forall i: nat :: i < |before| ==> before[i] == events[i];
    assert events[|before|] == e;
    forall i: nat | LastSize(events, i, q) ensures x'.size == events[i].op.size {
      SizeStep(before, e, q, i);
    }
  }

  /** One more event: it starts a reset, finishes it, or leaves things as they are. */
  lemma PendingStep(initial: bool, events: seq<Event>, e: Event, q: nat)
    ensures ResetPending(initial, events + [e], q) <==>
            Restarts(e, q) || (!Clears(e, q) && ResetPending(initial, events, q))
  {
    var all := events + [e];
    assert forall i: nat :: i < |events| ==> all[i] == events[i];
    assert all[|events|] == e;
    forall i: nat | i < |events| ensures Unfinished(all, i, q) <==> Unfinished(events, i, q) && !Clears(e, q) {
      if Unfinished(all, i, q) {
        assert !Clears(all[|events|], q);
        forall j: nat | i < j < |events| ensures !Clears(events[j], q) {
          assert !Clears(all[j], q);
        }
      }
    }
    if Restarts(e, q) {
      assert Restarts(all[|events|], q) && Unfinished(all, |events|, q);
    }
    if ResetPending(initial, events, q) && !Clears(e, q) {
      if i: nat :| i < |events| && Restarts(events[i], q) && Unfinished(events, i, q) {
        assert Restarts(all[i], q) && Unfinished(all, i, q);
      }
    }
    if ResetPending(initial, all, q) && !Restarts(e, q) {
      if i: nat :| i < |all| && Restarts(all[i], q) && Unfinished(all, i, q) {
        assert i < |events| && Restarts(events[i], q) && Unfinished(events, i, q);
      } else {
        assert forall j: nat :: j < |all| ==> !Clears(all[j], q);
        forall j: nat | j < |events| ensures !Clears(events[j], q) {
          assert !Clears(all[j], q);
        }
      }
    }
  }

  lemma {:induction false} ResetLaw(queues: seq<Queue>, events: seq<Event>, q: nat)
    requires q < |queues|
    ensures Replay(queues, events)[q].resetting != 0 <==> ResetPending(queues[q].resetting != 0, events, q)
  {
    if events != [] {
      var last := |events| - 1;
      ResetLaw(queues, events[..last], q);
      ReplayStep(queues, events[..last], events[last], q);
      PendingStep(queues[q].resetting != 0, events[..last], events[last], q);
      assert events[..last] + [events[last]] == events;
    }
  }

  lemma {:induction false} CountLaw(queues: seq<Queue>, events: seq<Event>, q: nat)
    requires q < |queues|
    ensures Replay(queues, events)[q].kicks == queues[q].kicks + Notifications(events, q)
    ensures Replay(queues, events)[q].max == queues[q].max
  {
    if events != [] {
      var before := events[..|events| - 1];
      CountLaw(queues, before, q);
      ReplayStep(queues, before, events[|events| - 1], q);
      assert before + [events[|events| - 1]] == events;
    }
  }

  lemma QueueLaw(queues: seq<Queue>, events: seq<Event>, q: nat)
    requires q < |queues|
    ensures QueueIs(queues[q], Replay(queues, events)[q], events, q)
  {
    hide Replay, ResetPending;
    EnableLaw(queues, events, q);
    SizeLaw(queues, events, q);
    ResetLaw(queues, events, q);
    CountLaw(queues, events, q);
  }

  lemma AnswerLaw(queues: seq<Queue>, events: seq<Event>, q: nat, op: QueueOp)
    requires q < |queues|
    ensures AnswerIs(queues[q], events, q, op, AnswerAt(Replay(queues, events), q, op))
  {
    hide Replay, ResetPending;
    ResetLaw(queues, events, q);
    CountLaw(queues, events, q);
  }

  /** Every queue operation acts on the queue its caller named, and answers for it: after any run each register of
      each queue is what the record of calls on that queue says, and so was each answer when it was given. */
  lemma ActsOnItsQueue(s: Bus, prog: seq<Call>, queues: seq<Queue>)
    requires Orderly(prog) && Reachable(s, prog, queues)
    ensures |s.regs.queues| == |queues|
    ensures forall q: nat :: q < |queues| ==> QueueIs(queues[q], s.regs.queues[q], s.events, q)
    ensures forall k: nat :: k < |s.events| && s.events[k].Done? && s.events[k].q < |queues| ==>
              AnswerIs(queues[s.events[k].q], s.events[..k], s.events[k].q, s.events[k].op, s.events[k].answer)
  {
    hide Reachable, Orderly, QueueIs, AnswerIs, Replay;
    SelectorPlaysNoPart(s, prog, queues);
    forall q: nat | q < |queues| ensures QueueIs(queues[q], s.regs.queues[q], s.events, q) {
      QueueLaw(queues, s.events, q);
    }
    forall k: nat | k < |s.events| && s.events[k].Done? && s.events[k].q < |queues|
      ensures AnswerIs(queues[s.events[k].q], s.events[..k], s.events[k].q, s.events[k].op, s.events[k].answer)
    {
      AnswerLaw(queues, s.events[..k], s.events[k].q, s.events[k].op);
    }
  }

  /** The operation itself: recorded as its caller asked for it, the recorded answer is the caller's, and no other
      queue changes. */
  lemma OneOperation(s: Bus, prog: seq<Call>, queues: seq<Queue>, t: nat)
    requires Orderly(prog) && Reachable(s, prog, queues) && Enabled(s, prog, Act(t))
    ensures var x := s.threads[t]; var s' := Next(s, prog, Act(t));
            && |s'.events| == |s.events| + 1 && s.events <= s'.events
            && var e := s'.events[|s.events|];
               && OnQ(e, x.q) && e.op == x.op
               && s'.threads[t] == Leaving(OnQueue(x.q, x.op), e.answer)
               && |s'.regs.queues| == |s.regs.queues|
               && forall q: nat :: q < |s.regs.queues| && q != x.q ==> s'.regs.queues[q] == s.regs.queues[q]
  {
    hide Reachable, Orderly, Operate, AnswerAt;
    SelectorPlaysNoPart(s, prog, queues);
  }

  // ----- What the initialisation leaves -----

  /** Nobody but the initialising thread enables queue 0 or sets its size. */
  ghost predicate Undisturbed(s: Bus) {
    forall k: nat :: k < |s.events| && (Enables(s.events[k], 0) || Sizes(s.events[k], 0)) ==> k in s.marks
  }

  lemma HandedOut(s: Bus, size: nat, polls: nat, queues: seq<Queue>)
    requires Reachable(s, InitCalls(size, polls), queues) && s.handle
    ensures |s.marks| == polls + 8 && |s.regs.queues| == |queues|
    ensures forall k: nat :: k < |s.marks| ==>
              s.marks[k] < |s.events| && IsEffect(s.events[s.marks[k]], InitCalls(size, polls)[k])
    ensures forall j: nat, k: nat :: j < k < |s.marks| ==> s.marks[j] < s.marks[k]
  {
    hide Reachable, AnswersRight, Replay, InitCalls;
    InitCallsOrderly(size, polls);
    ReachableInv(s, InitCalls(size, polls), queues);
  }

  /** Once the handle is out the initialisation has taken effect, call by call: ACKNOWLEDGE (1), DRIVER (2) and
      FEATURES_OK (8) were written, then queue 0 was asked for its maximum, reset, polled, given its size and
      enabled, and only after all of that DRIVER_OK (4) was written. All four bits are in the register. */
  lemma InitTakesEffect(s: Bus, size: nat, polls: nat, queues: seq<Queue>)
    requires Reachable(s, InitCalls(size, polls), queues) && s.handle
    ensures |s.marks| == polls + 8
    ensures forall j: nat, k: nat :: j < k < |s.marks| ==> s.marks[j] < s.marks[k]
    ensures forall k: nat :: k < |s.marks| ==> s.marks[k] < |s.events|
    ensures s.events[s.marks[0]] == Added(1) && s.events[s.marks[1]] == Added(2) && s.events[s.marks[2]] == Added(8)
    ensures OnQ(s.events[s.marks[3]], 0) && s.events[s.marks[3]].op == MaxSize
    ensures OnQ(s.events[s.marks[4]], 0) && s.events[s.marks[4]].op == StartReset
    ensures forall k: nat :: 5 <= k < polls + 5 ==> OnQ(s.events[s.marks[k]], 0) && s.events[s.marks[k]].op == PollReset
    ensures OnQ(s.events[s.marks[polls + 5]], 0) && s.events[s.marks[polls + 5]].op == SetSize(size)
    ensures OnQ(s.events[s.marks[polls + 6]], 0) && s.events[s.marks[polls + 6]].op == Enable(true)
    ensures s.events[s.marks[polls + 7]] == Added(4)
    ensures s.regs.status & 0x0f == 0x0f
  {
    hide Reachable, Orderly;
    HandedOut(s, size, polls, queues);
    var prog := InitCalls(size, polls);
    assert prog[0] == AddStatus(ACKNOWLEDGE) && prog[1] == AddStatus(DRIVER) && prog[2] == AddStatus(FEATURES_OK);
    assert prog[3] == OnQueue(0, MaxSize) && prog[4] == OnQueue(0, StartReset);
    assert forall k: nat :: 5 <= k < polls + 5 ==> prog[k] == OnQueue(0, PollReset);
    assert prog[polls + 5] == OnQueue(0, SetSize(size)) && prog[polls + 6] == OnQueue(0, Enable(true));
    assert prog[polls + 7] == AddStatus(DRIVER_OK);
    InitCallsOrderly(size, polls);
    StatusNeverLost(s, prog, queues);
    FourBits(s.regs.status);
  }

  lemma FourBits(status: bv8)
    ensures status & 1 == 1 && status & 2 == 2 && status & 4 == 4 && status & 8 == 8 ==> status & 0x0f == 0x0f
  {
  }

  /** If nobody else changes queue 0 it is then enabled, with the size that was asked for. */
  lemma InitEnables(s: Bus, size: nat, polls: nat, queues: seq<Queue>)
    requires Reachable(s, InitCalls(size, polls), queues) && s.handle && |queues| > 0 && Undisturbed(s)
    ensures |s.regs.queues| == |queues|
    ensures s.regs.queues[0].ready && s.regs.queues[0].size == size
  {
    hide Reachable, Orderly, ResetPending;
    InitTakesEffect(s, size, polls, queues);
    InitCallsOrderly(size, polls);
    ActsOnItsQueue(s, InitCalls(size, polls), queues);
    InitTakesEffectOnce(s, size, polls, queues);
    assert LastEnable(s.events, s.marks[polls + 6], 0);
    assert LastSize(s.events, s.marks[polls + 5], 0);
  }

  /** The initialisation enables once and sets the size once. */
  lemma InitTakesEffectOnce(s: Bus, size: nat, polls: nat, queues: seq<Queue>)
    requires Reachable(s, InitCalls(size, polls), queues) && s.handle && Undisturbed(s)
    ensures |s.marks| == polls + 8
    ensures forall k: nat :: k < |s.events| && Enables(s.events[k], 0) ==> k == s.marks[polls + 6]
    ensures forall k: nat :: k < |s.events| && Sizes(s.events[k], 0) ==> k == s.marks[polls + 5]
  {
    hide Reachable, Orderly;
    InitTakesEffect(s, size, polls, queues);
    forall k: nat | k < |s.events| && (Enables(s.events[k], 0) || Sizes(s.events[k], 0))
      ensures k == s.marks[if Enables(s.events[k], 0) then polls + 6 else polls + 5]
    {
      var i: nat :| i < |s.marks| && s.marks[i] == k;
      assert i == polls + 5 || i == polls + 6;
    }
  }

  // ----- The two sizes of a queue -----

  /** virtio_create_queue, src/virtio/virtio.c:313: the size the driver builds its queue with; 0 is refused. */
  function ChosenSize(size: nat, max: nat): nat {
    if size == 0 then max else if size < max then size else max
  }

  /** The maximum the initialising thread was answered. */
  function AnsweredMax(s: Bus): nat {
    if |s.marks| > 3 && s.marks[3] < |s.events| && s.events[s.marks[3]].Done? then s.events[s.marks[3]].answer else 0
  }

  /** Everyone who sets the size of queue 0 sets it to `size`. */
  predicate OnlySize(events: seq<Event>, size: nat) {
    forall k: nat :: k < |events| && Sizes(events[k], 0) ==> events[k].op.size == size
  }

  lemma {:induction false} LastSizeExists(events: seq<Event>, k: nat) returns (i: nat)
    requires k < |events| && Sizes(events[k], 0)
    ensures LastSize(events, i, 0)
    decreases |events| - k
  {
    if j: nat :| k < j < |events| && Sizes(events[j], 0) {
      i := LastSizeExists(events, j);
    } else {
      i := k;
    }
  }

  /** Once the handle is out, driver and device work with the same size for queue 0 exactly when the size asked for
      was between 1 and the maximum the device answered: it is told the size asked for, not the one chosen. */
  lemma SizesAgreeExactly(s: Bus, size: nat, polls: nat, queues: seq<Queue>)
    requires Reachable(s, InitCalls(size, polls), queues) && s.handle && |queues| > 0 && OnlySize(s.events, size)
    requires ChosenSize(size, AnsweredMax(s)) > 0
    ensures |s.regs.queues| == |queues| && AnsweredMax(s) == queues[0].max == s.regs.queues[0].max
    ensures s.regs.queues[0].size == ChosenSize(size, AnsweredMax(s)) <==> 1 <= size <= AnsweredMax(s)
  {
    hide Reachable, Orderly, ResetPending;
    InitTakesEffect(s, size, polls, queues);
    InitCallsOrderly(size, polls);
    ActsOnItsQueue(s, InitCalls(size, polls), queues);
    var i := LastSizeExists(s.events, s.marks[polls + 5]);
  }

  /** It goes wrong for real: a device with any maximum, no size asked for or one more than the maximum, and an
      initialisation that runs through without anybody else. */
  lemma SizesDiffer(max: nat, size: nat) returns (s: Bus, queues: seq<Queue>)
    requires max > 0 && (size == 0 || size == max + 1)
    ensures Reachable(s, InitCalls(size, 1), queues) && s.handle
    ensures |queues| == |s.regs.queues| == 1 && AnsweredMax(s) == max
    ensures ChosenSize(size, max) == max && s.regs.queues[0].size == size != max
  {
    hide Reachable, InitCalls;
    s, queues := InitRuns(max, size, 1);
    SizesAgreeExactly(s, size, 1, queues);
    InitEnables(s, size, 1, queues);
  }

  /** The initialisation runs through on a device with one queue of any maximum; then queue 0 is enabled. */
  lemma InitRuns(max: nat, size: nat, polls: nat) returns (s: Bus, queues: seq<Queue>)
    requires max > 0
    ensures Reachable(s, InitCalls(size, polls), queues) && s.handle && Undisturbed(s) && OnlySize(s.events, size)
    ensures |queues| == 1 && queues[0].max == max && AnsweredMax(s) == max && |s.regs.queues| == 1
    ensures s.regs.queues[0].ready && s.regs.queues[0].size == size
  {
    hide Reachable, Init, InitCalls;
    queues := [Queue(max, 0, false, 0, 0)];
    var start := Bus(Regs(0, 0, queues), None, [Outside], 0, false, [], []);
    InitReachable(start, InitCalls(size, polls));
    s := InitCompletes(start, InitCalls(size, polls), queues);
    AloneUndisturbed(s);
    InitEnables(s, size, polls, queues);
    InitTakesEffect(s, size, polls, queues);
    InitTakesEffectOnce(s, size, polls, queues);
    InitCallsOrderly(size, polls);
    ActsOnItsQueue(s, InitCalls(size, polls), queues);
  }

  lemma AloneUndisturbed(s: Bus)
    requires Alone(s)
    ensures Undisturbed(s)
  {
    forall k: nat | k < |s.events| ensures k in s.marks {
      assert s.marks[k] == k;
    }
  }
}
