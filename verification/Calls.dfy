/** The four public calls of src/gpio/gpio.c, end to end: the bytes each of them sends, and that it returns exactly
    what the device answers. */
module Calls {
  import opened Words
  import opened Wire
  import opened VirtqSpec
  import opened Protocol
  import opened Invariant
  import opened Reach
  import opened Changes
  import opened Safety
  import opened Liveness
  import opened GpioSpec
  import Refinement
  import Virtqs

  datatype PublicCall =
    | GetDirection(gpio: u16)
    | SetDirection(gpio: u16, direction: u8)
    | GetValue(gpio: u16)
    | SetValue(gpio: u16, value: u8)

  /** The request a call sends; the two that ask send the value 0. */
  function RequestOf(call: PublicCall): (req: Buffer)
    ensures Sendable(req)
  {
    match call
    case GetDirection(gpio) => Request(MSG_GET_DIRECTION, gpio, 0)
    case SetDirection(gpio, direction) => Request(MSG_SET_DIRECTION, gpio, direction)
    case GetValue(gpio) => Request(MSG_GET_VALUE, gpio, 0)
    case SetValue(gpio, value) => Request(MSG_SET_VALUE, gpio, value)
  }

  /** The bytes of each request. */
  lemma SentBytes(call: PublicCall)
    ensures var req := RequestOf(call); var lo, hi := call.gpio % 0x100, call.gpio / 0x100;
            RequestBytes(req.kind, req.gpio, req.value) ==
            match call
            case GetDirection(_) => [2, 0, lo, hi, 0, 0, 0, 0]
            case SetDirection(_, direction) => [3, 0, lo, hi, direction, 0, 0, 0]
            case GetValue(_) => [4, 0, lo, hi, 0, 0, 0, 0]
            case SetValue(_, value) => [5, 0, lo, hi, value, 0, 0, 0]
  {
  }

  // ----- Whatever the device answers is what the call returns -----

  /** The device has not answered chain `p` yet, or has answered so. */
  predicate OpenOr(s: State, p: nat, status: u8, value: u8) {
    p in s.h.served ==> s.h.served[p].status == status && s.h.served[p].value == value
  }

  lemma WakeIs(s: State, c: nat)
    requires Enabled(s, SWake(c))
    ensures var last := Next(s, SWake(c)).callers[c].last; var pc := s.callers[c];
            Next(s, SWake(c)).callers[c] == Idle(last) && last == Returned(pc.req, pc.p, last.rc, last.value)
  {
  }

  /** The result of the last step, from the device's answer. */
  lemma WakeReturns(s: State, c: nat, status: u8, value: u8)
    requires Enabled(s, SWake(c)) && OpenOr(s, s.callers[c].p, status, value)
    requires Inv(s)
    ensures At(Next(s, SWake(c)), c)
    ensures Next(s, SWake(c)).callers[c] ==
            Idle(Returned(s.callers[c].req, s.callers[c].p, if status == 0 then EOK else EIO, value))
    ensures var s' := Next(s, SWake(c)); var p := s.callers[c].p;
            p in s'.h.served && s'.h.served[p] == Served(s.callers[c].req, status, value)
  {
    hide Inv, Next;
    StepInv(s, SWake(c));
    CallerChanges(s, SWake(c));
    WakeIs(s, c);
    RightCallerInv(Next(s, SWake(c)), c);
  }

  /** Any other step on the way leaves the caller waiting and the answer open, or answers as wished. */
  lemma StepKeepsOpen(s: State, step: Step, c: nat, status: u8, value: u8)
    requires At(s, c) && s.callers[c].Wait? && OpenOr(s, s.callers[c].p, status, value)
    requires Enabled(s, step) && !Next(s, step).fault && (ByCaller(step) ==> step.SBump?)
    requires step.DRespond? ==> step == DRespond(s.callers[c].p, status, value)
    ensures At(Next(s, step), c) && Next(s, step).callers[c] == s.callers[c]
    ensures OpenOr(Next(s, step), s.callers[c].p, status, value)
  {
    hide Next;
    OtherStep(s, step, c);
    if ByCaller(step) {
      CallerChanges(s, step);
    } else if ByDevice(step) {
      DeviceChanges(s, step);
    } else {
      ThreadChanges(s, step);
    }
  }

  /** From every reachable state in which a call waits unanswered, and for every status and value, the device can
      answer so, and then the call returns exactly that: EOK for the status byte 0 and EIO for every other. */
  lemma {:induction false} AnswerReturns(s: State, c: nat, status: u8, value: u8) returns (steps: seq<Step>, s': State)
    requires At(s, c) && s.callers[c].Wait? && OpenOr(s, s.callers[c].p, status, value)
    requires Inv(s)
    ensures Leads(s, steps, s') && At(s', c)
    ensures var pc := s.callers[c];
            && s'.callers[c] == Idle(Returned(pc.req, pc.p, if status == 0 then EOK else EIO, value))
            && pc.p in s'.h.served && s'.h.served[pc.p] == Served(pc.req, status, value)
    decreases Rank(s)
  {
    hide Inv, Rank, Next, Enabled, Leads, Productive, OpenOr;
    RankNatural(s);
    var step := WaitProgress(s, c, status, value);
    StepLowersRank(s, step);
    Refinement.LeadsOne(s, step);
    var s1 := Next(s, step);
    if step == SWake(c) {
      WakeReturns(s, c, status, value);
      steps, s' := [step], s1;
    } else {
      NoFault(s1);
      StepKeepsOpen(s, step, c, status, value);
      var rest;
      rest, s' := AnswerReturns(s1, c, status, value);
      steps := [step] + rest;
      Refinement.LeadsJoin(s, [step], s1, rest, s');
    }
  }

  // ----- On a new queue -----

  lemma StartFacts(s: State, num: nat)
    requires Init(s) && |s.callers| == 1 && s.vq == Virtqs.Empty(num) && num >= 2
    ensures s.callers[0].Idle? && s.lock.None? && |s.vq.free| >= 2 && s.vq.mem == map[] && s.h.published == []
    ensures s.h.served == map[]
  {
  }

  /** Caller 0's request is not answered before it is sent. */
  lemma {:induction false} OwnStepsServe(s: State, steps: seq<Step>, s': State, c: nat)
    requires Leads(s, steps, s') && Refinement.OwnSteps(steps, c)
    ensures s'.h.served == s.h.served
    decreases |steps|
  {
    hide Next, Enabled;
    if steps != [] {
      CallerChanges(s, steps[0]);
      OwnStepsServe(Next(s, steps[0]), steps[1..], s', c);
    }
  }

  /** A whole call on a new queue of any size that holds a request: sent, answered and returned. The device answered
      exactly the request of the call. */
  lemma CallOnNewQueue(num: nat, call: PublicCall, status: u8, value: u8)
      returns (start: State, steps: seq<Step>, s: State)
    requires IsPow2(num) && 2 <= num <= 32768
    ensures Init(start) && start.vq == Virtqs.Empty(num) && |start.callers| == 1
    ensures Leads(start, steps, s) && At(s, 0)
    ensures s.callers[0] == Idle(Returned(RequestOf(call), 0, if status == 0 then EOK else EIO, value))
    ensures 0 in s.h.served && s.h.served[0] == Served(RequestOf(call), status, value)
  {
    hide Reachable, Leads, Inv, Init, WF, SendRequest, RequestOf, OpenOr, Next, Enabled, Refinement.OwnSteps;
    start := Refinement.StartsFromCreated(num, 1);
    StartFacts(start, num);
    Refinement.ReachableQueue(start);
    var req := RequestOf(call);
    RequestPublishes(start.vq, req, 0, Mapped(1), Mapped(2));
    var send, sent := Refinement.RequestRefines(start, 0, req, Mapped(1), Mapped(2));
    ReachableInv(sent);
    OwnStepsServe(start, send, sent, 0);
    StillOpen(sent, 0, status, value);
    var rest;
    rest, s := AnswerReturns(sent, 0, status, value);
    steps := send + rest;
    Refinement.LeadsJoin(start, send, sent, rest, s);
  }

  lemma StillOpen(s: State, p: nat, status: u8, value: u8)
    requires s.h.served == map[]
    ensures OpenOr(s, p, status, value)
  {
  }
}
