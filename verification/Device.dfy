/**
 The device-push signature of the eidScan flow (signing/flows.go, signDevice): publish the
 verification code, push the digest, poll until an answer or the deadline, always delete.
 */
module Device {
  import opened Wrappers

  datatype Poll = Unanswered | Pending | Finished(value: string) | Failed | Canceled

  datatype Result = Signature(value: string) | DeviceFailed | DeviceCanceled | DeviceTimeout | ContextDone
                  | NotPublished | NotPushed

  /** What the call did to the world, in order. */
  datatype Effect = Publish(code: string) | Push(code: string, id: string) | Delete(id: string)

  predicate Answered(p: Poll) {
    p.Finished? || p.Failed? || p.Canceled?
  }

  function Verdict(p: Poll): Result
    requires Answered(p)
  {
    match p case Finished(v) => Signature(v) case Failed => DeviceFailed case Canceled => DeviceCanceled
  }

  /** When the k-th tick of a ticker started at `start` is due. */
  ghost function Due(start: int, interval: int, k: nat): int {
    if k == 0 then start else Due(start, interval, k - 1) + interval
  }

  datatype Clock = Clock(start: int, interval: int, latency: int, checked: nat -> int, tick: nat -> int) {
    /**
     Around poll k: `checked(k)` is the reading taken after it and `tick(k)` the end of the wait
     that follows. The clock does not go back, the next tick comes within an interval and is at
     least the one due, and the next poll takes at most `latency`.
     */
    ghost predicate Timely(k: nat) {
      && checked(k) <= tick(k) <= checked(k) + interval
      && Due(start, interval, k + 1) <= tick(k) <= checked(k + 1) <= tick(k) + latency
    }

    ghost predicate Ticking() {
      && interval > 0
      && latency >= 0
      && start <= checked(0) <= start + latency
      && forall k: nat :: Timely(k)
    }
  }

  /** The polling loop: which poll ended it, and how. */
  method PollUntil(poll: nat -> Poll, done: nat -> bool, grace: int, clock: Clock)
    returns (result: Result, k: nat)
    requires clock.Ticking()
    ensures forall i :: 0 <= i < k ==> !Answered(poll(i)) && clock.checked(i) <= grace && !done(i)
    ensures if Answered(poll(k)) then result == Verdict(poll(k))
            else if clock.checked(k) > grace then result == DeviceTimeout
            else done(k) && result == ContextDone
    ensures clock.checked(k) <= clock.latency + if k == 0 then clock.start else grace + clock.interval
  {
    k := 0;
    while true
      invariant Due(clock.start, clock.interval, k) <= clock.checked(k)
      invariant clock.checked(k) <= clock.latency + if k == 0 then clock.start else grace + clock.interval
      invariant forall i :: 0 <= i < k ==> !Answered(poll(i)) && clock.checked(i) <= grace && !done(i)
      decreases grace - Due(clock.start, clock.interval, k)
    {
      var p := poll(k);
      if Answered(p) { return Verdict(p), k; }
      if clock.checked(k) > grace { return DeviceTimeout, k; }
      if done(k) { return ContextDone, k; }
      assert clock.Timely(k);
      k := k + 1;
    }
  }

  /** Ten seconds past the deadline, in milliseconds. */
  const GRACE: int := 10_000

  /** signDevice, from the verification code on. */
  method SignDevice(code: Option<string>, deadline: int, published: bool, pushed: Option<string>,
                    poll: nat -> Poll, done: nat -> bool, clock: Clock)
    returns (result: Result, effects: seq<Effect>)
    requires clock.Ticking()
    ensures effects ==
      match code
      case None => []
      case Some(c) =>
        [Publish(c)] +
        if published && pushed.Some? then [Push(c, pushed.value), Delete(pushed.value)] else []
    ensures code.Some? && published && pushed.Some? ==> exists k: nat ::
      && (forall i :: 0 <= i < k ==>
            (poll(i).Unanswered? || poll(i).Pending?) && clock.checked(i) <= deadline + 10_000 && !done(i))
      && match poll(k)
         case Finished(value) => result == Signature(value)
         case Failed => result == DeviceFailed
         case Canceled => result == DeviceCanceled
         case _ => if clock.checked(k) > deadline + 10_000 then result == DeviceTimeout
                   else done(k) && result == ContextDone
    ensures !(code.Some? && published && pushed.Some?) ==>
      result == if code.Some? && published then NotPushed else NotPublished
  {
    effects := [];
    if code.None? { return NotPublished, effects; }
    effects := effects + [Publish(code.value)];
    if !published { return NotPublished, effects; }
    if pushed.None? { return NotPushed, effects; }
    effects := effects + [Push(code.value, pushed.value)];
    var k;
    result, k := PollUntil(poll, done, deadline + GRACE, clock);
    effects := effects + [Delete(pushed.value)];   // deferred: runs on every exit after the push
  }
}
