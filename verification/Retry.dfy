/**
 The SignAPI client's sending disciplines (signapi/client.go). The provider is an arbitrary
 outcome per send, and the caller's context may be found cancelled after any of them.
 */
module Retry {
  const MAX_ATTEMPTS: nat := 3

  datatype Outcome =
    | Fault(dial: bool)                                  // no answer; dial: no connection was made
    | Answer(status: nat, empty: bool, decodes: bool)    // an answer, and what its body is good for

  datatype Reply =
    | Cancelled
    | Sent(outcome: Outcome)   // the outcome of the last send, success or not
    | Undecodable              // a 2xx whose body is not the expected JSON

  /** The provider certainly did not start the request. */
  predicate NotTaken(o: Outcome) {
    if o.Fault? then o.dial else o.status == 502 || o.status == 503
  }

  /** A failed dial, a 502 or a 503: nothing else is certain not to have been started. */
  lemma StartedUnless(send: nat -> Outcome, n: nat)
    ensures MayHaveStarted(send, n + 1) == MayHaveStarted(send, n)
      + match send(n) case Fault(dial) => (if dial then 0 else 1)
                      case Answer(status, _, _) => (if status == 502 || status == 503 then 0 else 1)
  {
  }

  /** How many of the first n sends the provider may have started. */
  function MayHaveStarted(send: nat -> Outcome, n: nat): nat {
    if n == 0 then 0 else MayHaveStarted(send, n - 1) + (if NotTaken(send(n - 1)) then 0 else 1)
  }

  lemma {:induction false} NoneStarted(send: nat -> Outcome, n: nat)
    requires forall k :: 0 <= k < n ==> NotTaken(send(k))
    ensures MayHaveStarted(send, n) == 0
  {
    if n > 0 { NoneStarted(send, n - 1); }
  }

  /** patientCall: asked again only when the provider certainly did not take the request. */
  method PatientCall(send: nat -> Outcome, cancelled: nat -> bool) returns (reply: Reply, sends: nat)
    ensures 1 <= sends <= 3
    ensures MayHaveStarted(send, sends) <= 1
    ensures forall k :: 0 <= k < sends - 1 ==>
      !cancelled(k) && if send(k).Fault? then send(k).dial else send(k).status in {502, 503}
    ensures
      var last := send(sends - 1);
      if (if last.Fault? then last.dial else last.status in {502, 503}) then
        if cancelled(sends - 1) then reply == Cancelled else sends == 3 && reply == Sent(last)
      else reply == Sent(last)
  {
    sends := 0;
    while sends < MAX_ATTEMPTS
      invariant sends <= MAX_ATTEMPTS
      invariant forall k :: 0 <= k < sends ==> NotTaken(send(k)) && !cancelled(k)
    {
      NoneStarted(send, sends);
      sends := sends + 1;
      var outcome := send(sends - 1);
      if !NotTaken(outcome) { return Sent(outcome), sends; }
      if cancelled(sends - 1) { return Cancelled, sends; }
    }
    NoneStarted(send, sends);
    reply := Sent(send(sends - 1));
  }

  /** An answer that ends the retries: anything but a transport fault or a 5xx. */
  predicate Definitive(o: Outcome) {
    o.Answer? && o.status / 100 != 5
  }

  /** retried (decoding its 2xx body) and raw (not decoding): faults and 5xx are tried again. */
  method Retried(send: nat -> Outcome, cancelled: nat -> bool, decode: bool) returns (reply: Reply, sends: nat)
    ensures 1 <= sends <= 3
    ensures forall k :: 0 <= k < sends - 1 ==> !cancelled(k) && (send(k).Fault? || 500 <= send(k).status <= 599)
    ensures
      var last := send(sends - 1);
      if last.Answer? && !(500 <= last.status <= 599) then
        reply == if decode && 200 <= last.status <= 299 && !last.empty && !last.decodes then Undecodable else Sent(last)
      else if cancelled(sends - 1) then reply == Cancelled
      else sends == 3 && reply == Sent(last)
  {
    sends := 0;
    while sends < MAX_ATTEMPTS
      invariant sends <= MAX_ATTEMPTS
      invariant forall k :: 0 <= k < sends ==> !Definitive(send(k)) && !cancelled(k)
    {
      sends := sends + 1;
      var outcome := send(sends - 1);
      if Definitive(outcome) {
        if decode && outcome.status / 100 == 2 && !outcome.empty && !outcome.decodes {
          return Undecodable, sends;
        }
        return Sent(outcome), sends;
      }
      if cancelled(sends - 1) { return Cancelled, sends; }
    }
    reply := Sent(send(sends - 1));
  }

  /** backoff, in milliseconds: doubling from 200, never above 2000. */
  method Backoff(attempt: nat) returns (d: nat)
    ensures attempt < 4 ==> d == [200, 400, 800, 1600][attempt]
    ensures attempt >= 4 ==> d == 2000
  {
    d := 200;
    var i := 0;
    while i < attempt
      invariant i <= attempt
      invariant if i < 4 then d == [200, 400, 800, 1600][i] else d >= 3200
    {
      d, i := 2 * d, i + 1;
    }
    if d > 2000 { d := 2000; }
  }
}
