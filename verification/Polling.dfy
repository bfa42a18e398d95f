/** The bounded polls of src/virtio/virtio.c. What the device answers, how long each delay really sleeps and what
    an uninitialised local holds are parameters. */
module Polling {
  import opened Words

  /** One read of the polled register. */
  datatype Reading = Value(v: nat) | ReadFailed(err: Errno)

  predicate Busy(r: Reading) {
    r.Value? && r.v != 0
  }

  /** The `k`-th read after the first can still be made: the intervals before it have not used up the timeout. */
  predicate Allowed(timeout: nat, interval: nat, k: nat) {
    k == 0 || interval * (k - 1) < timeout
  }

  /** What a poll with reads `at(0)`, `at(1)`, ... comes to: it stops at the first read that is not busy, or at the
      last one allowed. `polls` is the number of reads after the first. */
  ghost predicate PollOutcome(at: nat -> Reading, timeout: nat, interval: nat, rc: Errno, polls: nat) {
    && Allowed(timeout, interval, polls)
    && (forall k: nat :: k < polls ==> Busy(at(k)))
    && (Busy(at(polls)) ==> !Allowed(timeout, interval, polls + 1))
    && rc == (match at(polls) case ReadFailed(err) => err case Value(v) => if v == 0 then EOK else ETIMEDOUT)
  }

  /** When the loop ends: not with an interval of 0 while there is time and every read is busy. */
  ghost predicate Ends(at: nat -> Reading, timeout: nat, interval: nat) {
    interval > 0 || timeout == 0 || exists k: nat :: !Busy(at(k))
  }

  /** The remaining time after `polls` intervals, stopping at zero. */
  function Remaining(timeout: nat, interval: nat, polls: nat): nat {
    if interval * polls >= timeout then 0 else timeout - interval * polls
  }

  lemma RemainingStep(timeout: nat, interval: nat, polls: nat)
    requires Remaining(timeout, interval, polls) > 0
    ensures var left := Remaining(timeout, interval, polls);
            Remaining(timeout, interval, polls + 1) == left - (if left < interval then left else interval)
    ensures Allowed(timeout, interval, polls + 1)
  {
    assert interval * (polls + 1) == interval * polls + interval;
  }

  lemma NoneLeft(timeout: nat, interval: nat, polls: nat)
    requires Remaining(timeout, interval, polls) == 0
    ensures !Allowed(timeout, interval, polls + 1)
  {
  }

  /** The reads allowed are the first one and ceil(timeout / interval) more. */
  lemma AllowedIsCeiling(timeout: nat, interval: nat, k: nat)
    requires interval > 0
    ensures Allowed(timeout, interval, k) <==> k <= (timeout + interval - 1) / interval
  {
    if k > 0 {
      CeilBound(timeout, interval, k - 1);
    }
  }

  /** `polls` intervals use up the timeout exactly from the ceiling of their quotient on. */
  lemma CeilBound(timeout: nat, interval: nat, polls: nat)
    requires interval > 0
    ensures interval * polls < timeout <==> polls < (timeout + interval - 1) / interval
  {
    var n := (timeout + interval - 1) / interval;
    var r := (timeout + interval - 1) % interval;
    assert timeout + interval - 1 == interval * n + r;
    if polls < n {
      MulGap(interval, polls, n);
    } else if polls > n {
      MulGap(interval, n, polls);
    }
  }

  /** Reads before an allowed one are allowed. */
  lemma AllowedBefore(timeout: nat, interval: nat, j: nat, k: nat)
    requires Allowed(timeout, interval, k) && j <= k
    ensures Allowed(timeout, interval, j)
  {
    if 0 < j < k {
      MulGap(interval, j - 1, k - 1);
    }
  }

  /** virtio_reset_device: the reset, then the poll. `read(k)` is the `k`-th status read, `delay` the time a
      delay leaves unslept, `slept` the time slept in all. */
  method ResetDevice(resetRc: Errno, timeout: nat, interval: nat, read: nat -> Reading, delay: (nat, nat) -> nat)
    returns (rc: Errno, polls: nat, slept: nat)
    requires resetRc == EOK ==> Ends(read, timeout, interval)
    requires forall k: nat, ms: nat :: ms > 0 ==> delay(k, ms) < ms
    ensures resetRc != EOK ==> rc == resetRc && polls == 0
    ensures resetRc == EOK ==> PollOutcome(read, timeout, interval, rc, polls)
    ensures slept == interval * polls
  {
    polls, slept := 0, 0;
    if resetRc != EOK {
      return resetRc, 0, 0;
    }
    var left := timeout;
    var status := read(0);
    if status.ReadFailed? {
      return status.err, 0, 0;
    }
    ghost var stop := LastRead(read, timeout, interval);
    while status.v != 0 && left > 0
      invariant status.Value? && status == read(polls)
      invariant forall k: nat :: k < polls ==> Busy(read(k))
      invariant left == Remaining(timeout, interval, polls)
      invariant Allowed(timeout, interval, polls)
      invariant slept == interval * polls
      decreases left, if interval == 0 && polls <= stop then stop - polls else 0
    {
      var ms := interval;
      MulNext(interval, polls);
      while ms > 0
        invariant slept + ms == interval * polls + interval
        decreases ms
      {
        var rest := delay(polls, ms);
        slept := slept + (ms - rest);
        ms := rest;
      }
      RemainingStep(timeout, interval, polls);
      left := left - if left < interval then left else interval;
      polls := polls + 1;
      status := read(polls);
      if status.ReadFailed? {
        return status.err, polls, slept;
      }
    }
    if left == 0 {
      NoneLeft(timeout, interval, polls);
    }
    rc := if status.v == 0 then EOK else ETIMEDOUT;
  }

  /** With an interval of 0, a read that is not busy. */
  ghost function LastRead(at: nat -> Reading, timeout: nat, interval: nat): (k: nat)
    requires Ends(at, timeout, interval)
    ensures interval == 0 && timeout > 0 ==> !Busy(at(k))
  {
    if interval == 0 && timeout > 0 then var k: nat :| !Busy(at(k)); k else 0
  }

  /** virtio_reset_queue has the same loop, but its first test reads a local that was never set: `local` takes
      the place of the first read. It sleeps `sleep` and counts `interval`. */
  method ResetQueue(setRc: Errno, timeout: nat, sleep: nat, interval: nat, local: nat, read: nat -> Reading,
                    delay: (nat, nat) -> nat)
    returns (rc: Errno, polls: nat, slept: nat)
    requires setRc == EOK ==> Ends(FirstReads(local, read), timeout, interval)
    requires forall k: nat, ms: nat :: ms > 0 ==> delay(k, ms) < ms
    ensures setRc != EOK ==> rc == setRc && polls == 0
    ensures setRc == EOK ==> PollOutcome(FirstReads(local, read), timeout, interval, rc, polls)
    ensures slept == sleep * polls
  {
    ghost var at := FirstReads(local, read);
    polls, slept := 0, 0;
    if setRc != EOK {
      return setRc, 0, 0;
    }
    var left := timeout;
    var status := local;
    ghost var stop := LastRead(at, timeout, interval);
    while status != 0 && left > 0
      invariant at(polls) == Value(status)
      invariant forall k: nat :: k < polls ==> Busy(at(k))
      invariant left == Remaining(timeout, interval, polls)
      invariant Allowed(timeout, interval, polls)
      invariant slept == sleep * polls
      decreases left, if interval == 0 && polls <= stop then stop - polls else 0
    {
      var ms := sleep;
      MulNext(sleep, polls);
      while ms > 0
        invariant slept + ms == sleep * polls + sleep
        decreases ms
      {
        var rest := delay(polls, ms);
        slept := slept + (ms - rest);
        ms := rest;
      }
      RemainingStep(timeout, interval, polls);
      left := left - if left < interval then left else interval;
      polls := polls + 1;
      var answer := read(polls);
      if answer.ReadFailed? {
        return answer.err, polls, slept;
      }
      status := answer.v;
    }
    if left == 0 {
      NoneLeft(timeout, interval, polls);
    }
    rc := if status == 0 then EOK else ETIMEDOUT;
  }

  /** The local stands in for the read that the code does not make. */
  function FirstReads(local: nat, read: nat -> Reading): nat -> Reading {
    (k: nat) => if k == 0 then Value(local) else read(k)
  }

  // ----- What the outcome means -----

  /** The loop has an outcome exactly when `Ends` says so. */
  lemma EndsExactly(at: nat -> Reading, timeout: nat, interval: nat)
    ensures (exists rc, polls: nat :: PollOutcome(at, timeout, interval, rc, polls)) <==> Ends(at, timeout, interval)
  {
    if Ends(at, timeout, interval) {
      var rc, polls := Outcome(at, timeout, interval, 0);
      assert PollOutcome(at, timeout, interval, rc, polls);
    }
    if rc, polls: nat :| PollOutcome(at, timeout, interval, rc, polls) {
      if interval == 0 && timeout > 0 {
        assert Allowed(timeout, interval, polls + 1);
        assert !Busy(at(polls));
      }
    }
  }

  lemma Outcome(at: nat -> Reading, timeout: nat, interval: nat, from: nat) returns (rc: Errno, polls: nat)
    requires Ends(at, timeout, interval) && Allowed(timeout, interval, from)
    requires forall k: nat :: k < from ==> Busy(at(k))
    ensures PollOutcome(at, timeout, interval, rc, polls)
    decreases if interval > 0 then Remaining(timeout, interval, from) else 0,
              if interval == 0 && from <= LastRead(at, timeout, interval) then LastRead(at, timeout, interval) - from
                  else 0
  {
    if Busy(at(from)) && Remaining(timeout, interval, from) > 0 {
      RemainingStep(timeout, interval, from);
      rc, polls := Outcome(at, timeout, interval, from + 1);
    } else {
      if Busy(at(from)) {
        NoneLeft(timeout, interval, from);
      }
      polls := from;
      rc := match at(polls) case ReadFailed(err) => err case Value(v) => if v == 0 then EOK else ETIMEDOUT;
    }
  }

  /** A reset reports EOK exactly when one of the reads it may make finds the status 0 and none before it
      failed, the error of a read that failed before any found 0, and a timeout if all reads it may make are busy. */
  lemma ResetIsHonest(read: nat -> Reading, timeout: nat, interval: nat, rc: Errno, polls: nat)
    requires PollOutcome(read, timeout, interval, rc, polls)
    requires forall k: nat :: read(k).ReadFailed? ==> read(k).err != EOK
    ensures rc == EOK <==>
      exists k: nat :: Allowed(timeout, interval, k) && read(k) == Value(0) && forall j: nat :: j < k ==> read(j).Value?
    ensures forall k: nat ::
              Allowed(timeout, interval, k) && read(k).ReadFailed? && (forall j: nat :: j < k ==> Busy(read(j))) ==>
                rc == read(k).err
    ensures (forall k: nat :: Allowed(timeout, interval, k) ==> Busy(read(k))) ==> rc == ETIMEDOUT
    ensures (forall k: nat :: read(k).Value?) ==> rc == EOK || rc == ETIMEDOUT
    ensures rc == EOK ==> read(polls) == Value(0)
  {
    forall k: nat | Allowed(timeout, interval, k) && read(k) == Value(0) && forall j: nat :: j < k ==> read(j).Value?
      ensures rc == EOK
    {
      if polls < k {
        AllowedBefore(timeout, interval, polls + 1, k);
        assert !Busy(read(polls)) && read(polls).Value?;
      }
    }
    forall k: nat | Allowed(timeout, interval, k) && read(k).ReadFailed? && (forall j: nat :: j < k ==> Busy(read(j)))
      ensures rc == read(k).err
    {
      if polls < k {
        AllowedBefore(timeout, interval, polls + 1, k);
      }
    }
    if rc == EOK {
      assert read(polls) == Value(0);
      assert forall j: nat :: j < polls ==> Busy(read(j));
    }
  }

  /** A queue reset may report EOK without the device having answered 0 even once: it does so exactly when the
      unset local happened to hold 0. */
  lemma QueueResetHonestExactly(local: nat, read: nat -> Reading, timeout: nat, interval: nat, rc: Errno, polls: nat)
    requires PollOutcome(FirstReads(local, read), timeout, interval, rc, polls)
    requires forall k: nat :: read(k).ReadFailed? ==> read(k).err != EOK
    ensures (rc == EOK ==> polls > 0 && read(polls) == Value(0)) <==> local != 0
  {
    var at := FirstReads(local, read);
    assert at(0) == Value(local);
    if polls > 0 {
      assert Busy(at(0)) && at(polls) == read(polls);
    }
  }
}
