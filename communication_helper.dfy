/**
 * The sending layer (CommunicationHelper). Every command goes through the codec
 * before the transport sees it; the transport itself (UDP or serial port) is
 * abstract and is modelled by a fault oracle that decides, for the n-th
 * transmission attempt, whether it fails and with which exception text.
 */
module Communication {
  import opened Wrappers
  import opened Messages
  import opened Text

  /** Length of every message of the protocol. */
  const MessageLength: nat := 5

  /** For the n-th call of `TransmitMessage`: None if it succeeds, Some(text) if it throws with that Message. */
  type FaultOracle = nat -> Option<string>

  /**
   * The observable state of a helper: how many transmissions were attempted,
   * the messages the transport accepted, in order, and the two text properties.
   */
  datatype Channel = Channel(attempts: nat, transmitted: seq<string>, lastSent: string, lastError: string)

  /** What the codec makes of a message: its canonical form, or the exception it throws. */
  type Outcome = Result<string, CodecError>

  /**
   * The transport step behind `SendMessageToRobot`, for a given codec outcome:
   * a rejected message records the codec's error and is not transmitted; an
   * accepted one is handed to the transport, whose failure records its text.
   */
  function Deliver(c: Channel, fault: FaultOracle, outcome: Outcome): (Channel, bool) {
    match outcome
    case Failure(e) => (c.(lastError := ErrorText(e)), false)
    case Success(corrected) =>
      match fault(c.attempts)
      case Some(text) => (c.(attempts := c.attempts + 1, lastError := text), false)
      case None => (c.(attempts := c.attempts + 1, transmitted := c.transmitted + [corrected], lastSent := corrected), true)
  }

  /** `SendMessageToRobot` on a state: the new state and the method's result. */
  function Send(c: Channel, fault: FaultOracle, message: string): (Channel, bool) {
    Deliver(c, fault, CorrectMessage(message))
  }

  /** Outcomes delivered one after the other, stopping at the first one that fails. */
  function DeliverAll(c: Channel, fault: FaultOracle, outcomes: seq<Outcome>): (Channel, bool)
    decreases |outcomes|
  {
    if outcomes == [] then (c, true)
    else
      var (next, ok) := Deliver(c, fault, outcomes[0]);
      if !ok then (next, false) else DeliverAll(next, fault, outcomes[1..])
  }

  /** What the codec makes of each message of a plan. */
  function Outcomes(plan: seq<string>): (r: seq<Outcome>)
    ensures |r| == |plan|
  {
    seq(|plan|, i requires 0 <= i < |plan| => CorrectMessage(plan[i]))
  }

  /** The messages sent one after the other, stopping at the first one that fails. */
  function SendAll(c: Channel, fault: FaultOracle, plan: seq<string>): (Channel, bool) {
    DeliverAll(c, fault, Outcomes(plan))
  }

  function Repeat(message: string, n: nat): (r: seq<string>)
    ensures |r| == n && forall i :: 0 <= i < n ==> r[i] == message
  {
    seq(n, _ => message)
  }

  /** What a non-recurrent send transmits: the message R times, then the void companion R times unless it is empty. */
  function NonrecurrentPlan(message: string, voidMessage: string, repetitions: nat): seq<string> {
    Repeat(message, repetitions) + (if voidMessage == "" then [] else Repeat(voidMessage, repetitions))
  }

  /** `ParseRoboScript`: the comma-separated pieces of a script, each trimmed; empty pieces are kept. */
  function ParseRoboScript(roboScript: string): (commands: seq<string>)
    ensures |commands| == Count(roboScript, ',') + 1
  {
    var parts := Split(roboScript, ',');
    seq(|parts|, i requires 0 <= i < |parts| => Trim(parts[i]))
  }

  // ---------------------------------------------------------------------------
  // Properties of a single send

  /** A message the codec accepts becomes a protocol message of MessageLength characters. */
  lemma CorrectedMessageLength(message: string)
    requires CorrectMessage(message).Success?
    ensures |CorrectMessage(message).value| == MessageLength
    ensures CorrectMessage(message).value[0] == message[0]
  {
    CorrectMessageCanonical(message);
  }

  /** A message the codec rejects is never transmitted: false, the codec's error text, nothing else changes. */
  lemma SendRejected(c: Channel, fault: FaultOracle, message: string)
    requires CorrectMessage(message).Failure?
    ensures Send(c, fault, message) == (c.(lastError := ErrorText(CorrectMessage(message).error)), false)
  {
  }

  /** A transport failure: false, the exception text recorded, LastSentMessage and the log unchanged. */
  lemma SendTransportFailure(c: Channel, fault: FaultOracle, message: string)
    requires CorrectMessage(message).Success? && fault(c.attempts).Some?
    ensures var (next, ok) := Send(c, fault, message);
      !ok && next.lastError == fault(c.attempts).value && next.lastSent == c.lastSent
      && next.transmitted == c.transmitted && next.attempts == c.attempts + 1
  {
  }

  /** A successful send transmits exactly one canonical message, which becomes LastSentMessage. */
  lemma SendSuccess(c: Channel, fault: FaultOracle, message: string)
    ensures var (next, ok) := Send(c, fault, message);
      ok <==> CorrectMessage(message).Success? && fault(c.attempts).None?
    ensures var (next, ok) := Send(c, fault, message);
      ok ==> |next.transmitted| == |c.transmitted| + 1
             && next.transmitted[..|c.transmitted|] == c.transmitted
             && next.lastSent == next.transmitted[|c.transmitted|]
             && |next.lastSent| == MessageLength
             && next.lastSent == CorrectMessage(message).value
             && next.lastError == c.lastError
  {
    if CorrectMessage(message).Success? {
      CorrectedMessageLength(message);
      var (next, ok) := Send(c, fault, message);
      if ok {
        assert next.transmitted == c.transmitted + [CorrectMessage(message).value];
      }
    }
  }

  /** A send only ever appends to the log. */
  lemma SendExtendsLog(c: Channel, fault: FaultOracle, message: string)
    ensures var next := Send(c, fault, message).0;
      c.transmitted <= next.transmitted && |next.transmitted| <= |c.transmitted| + 1
  {
  }

  // ---------------------------------------------------------------------------
  // Properties of a sequence of sends

  lemma {:induction false} DeliverAllAppend(c: Channel, fault: FaultOracle, p: seq<Outcome>, q: seq<Outcome>)
    ensures DeliverAll(c, fault, p + q)
         == (var (mid, ok) := DeliverAll(c, fault, p); if ok then DeliverAll(mid, fault, q) else (mid, false))
    decreases |p|
  {
    if p == [] {
      assert p + q == q;
    } else {
      assert (p + q)[0] == p[0];
      assert (p + q)[1..] == p[1..] + q;
      var (next, ok) := Deliver(c, fault, p[0]);
      if ok {
        DeliverAllAppend(next, fault, p[1..], q);
      }
    }
  }

  /** The transport accepts the n attempts starting with attempt number `from`. */
  predicate NoFaults(fault: FaultOracle, from: nat, n: nat) {
    forall k :: from <= k < from + n ==> fault(k).None?
  }

  lemma NoFaultsFirst(fault: FaultOracle, from: nat, n: nat)
    requires n > 0
    ensures NoFaults(fault, from, n) <==> fault(from).None? && NoFaults(fault, from + 1, n - 1)
  {
  }

  lemma AllSuccessFirst(outcomes: seq<Outcome>)
    requires outcomes != []
    ensures (forall i :: 0 <= i < |outcomes| ==> outcomes[i].Success?)
        <==> outcomes[0].Success? && forall i :: 0 <= i < |outcomes| - 1 ==> outcomes[1..][i].Success?
  {
    if forall i :: 0 <= i < |outcomes| - 1 ==> outcomes[1..][i].Success? {
      forall i | 1 <= i < |outcomes| ensures outcomes[i].Success? {
        assert outcomes[i] == outcomes[1..][i - 1];
      }
    }
  }

  /** Outcomes go through exactly when the codec accepted each of them and the transport accepts as many attempts. */
  lemma {:induction false} DeliverAllSuccess(c: Channel, fault: FaultOracle, outcomes: seq<Outcome>)
    ensures DeliverAll(c, fault, outcomes).1
        <==> (forall i :: 0 <= i < |outcomes| ==> outcomes[i].Success?) && NoFaults(fault, c.attempts, |outcomes|)
    decreases |outcomes|
  {
    if outcomes != [] {
      var (next, ok) := Deliver(c, fault, outcomes[0]);
      NoFaultsFirst(fault, c.attempts, |outcomes|);
      AllSuccessFirst(outcomes);
      if ok {
        assert next.attempts == c.attempts + 1;
        DeliverAllSuccess(next, fault, outcomes[1..]);
      }
    }
  }

  lemma {:induction false} DeliverAllLog(c: Channel, fault: FaultOracle, outcomes: seq<Outcome>)
    requires DeliverAll(c, fault, outcomes).1
    ensures forall i :: 0 <= i < |outcomes| ==> outcomes[i].Success?
    ensures var next := DeliverAll(c, fault, outcomes).0;
      next.attempts == c.attempts + |outcomes|
      && |next.transmitted| == |c.transmitted| + |outcomes|
      && next.transmitted[..|c.transmitted|] == c.transmitted
      && forall i :: 0 <= i < |outcomes| ==> next.transmitted[|c.transmitted| + i] == outcomes[i].value
    decreases |outcomes|
  {
    DeliverAllSuccess(c, fault, outcomes);
    if outcomes != [] {
      var next := Deliver(c, fault, outcomes[0]).0;
      var rest := outcomes[1..];
      DeliverAllLog(next, fault, rest);
      assert next.transmitted == c.transmitted + [outcomes[0].value];
      var final := DeliverAll(next, fault, rest).0;
      assert final.transmitted[..|next.transmitted|] == next.transmitted;
      assert final.transmitted[..|c.transmitted|] == c.transmitted by {
        assert final.transmitted[..|c.transmitted|] == next.transmitted[..|c.transmitted|];
      }
      forall i | 0 <= i < |outcomes|
        ensures final.transmitted[|c.transmitted| + i] == outcomes[i].value
      {
        if i > 0 {
          assert outcomes[i] == rest[i - 1];
        }
      }
    }
  }

  lemma {:induction false} DeliverAllExtendsLog(c: Channel, fault: FaultOracle, outcomes: seq<Outcome>)
    ensures c.transmitted <= DeliverAll(c, fault, outcomes).0.transmitted
    ensures |DeliverAll(c, fault, outcomes).0.transmitted| <= |c.transmitted| + |outcomes|
    decreases |outcomes|
  {
    if outcomes != [] {
      var (next, ok) := Deliver(c, fault, outcomes[0]);
      if ok {
        DeliverAllExtendsLog(next, fault, outcomes[1..]);
      }
    }
  }

  lemma OutcomesAppend(p: seq<string>, q: seq<string>)
    ensures Outcomes(p + q) == Outcomes(p) + Outcomes(q)
  {
  }

  /** Sending p then q is sending p + q, where q is only reached if all of p went through. */
  lemma SendAllAppend(c: Channel, fault: FaultOracle, p: seq<string>, q: seq<string>)
    ensures SendAll(c, fault, p + q)
         == (var (mid, ok) := SendAll(c, fault, p); if ok then SendAll(mid, fault, q) else (mid, false))
  {
    OutcomesAppend(p, q);
    DeliverAllAppend(c, fault, Outcomes(p), Outcomes(q));
  }

  lemma DeliverAllSingle(c: Channel, fault: FaultOracle, outcome: Outcome)
    ensures DeliverAll(c, fault, [outcome]) == Deliver(c, fault, outcome)
  {
    assert [outcome][1..] == [];
  }

  /** One more message at the end of a plan. */
  lemma SendAllSnoc(c: Channel, fault: FaultOracle, p: seq<string>, message: string)
    ensures SendAll(c, fault, p + [message])
         == (var (mid, ok) := SendAll(c, fault, p); if ok then Send(mid, fault, message) else (mid, false))
  {
    SendAllAppend(c, fault, p, [message]);
    var mid := SendAll(c, fault, p).0;
    assert Outcomes([message]) == [CorrectMessage(message)];
    DeliverAllSingle(mid, fault, CorrectMessage(message));
  }

  /** A plan succeeds exactly when the codec accepts every message and the transport every attempt. */
  lemma SendAllSuccess(c: Channel, fault: FaultOracle, plan: seq<string>)
    ensures SendAll(c, fault, plan).1
        <==> (forall i :: 0 <= i < |plan| ==> CorrectMessage(plan[i]).Success?) && NoFaults(fault, c.attempts, |plan|)
  {
    var outcomes := Outcomes(plan);
    DeliverAllSuccess(c, fault, outcomes);
    assert forall i :: 0 <= i < |plan| ==> outcomes[i] == CorrectMessage(plan[i]);
  }

  /** After a successful plan, the canonical form of each of its messages has been logged, in order, one transport attempt each. */
  lemma SendAllLog(c: Channel, fault: FaultOracle, plan: seq<string>)
    requires SendAll(c, fault, plan).1
    ensures forall i :: 0 <= i < |plan| ==> CorrectMessage(plan[i]).Success?
    ensures var next := SendAll(c, fault, plan).0;
      next.attempts == c.attempts + |plan|
      && |next.transmitted| == |c.transmitted| + |plan|
      && next.transmitted[..|c.transmitted|] == c.transmitted
      && forall i :: 0 <= i < |plan| ==> next.transmitted[|c.transmitted| + i] == CorrectMessage(plan[i]).value
  {
    DeliverAllLog(c, fault, Outcomes(plan));
    assert forall i :: 0 <= i < |plan| ==> Outcomes(plan)[i] == CorrectMessage(plan[i]);
  }

  lemma SplitLast(plan: seq<string>)
    requires plan != []
    ensures plan[..|plan| - 1] + [plan[|plan| - 1]] == plan
  {
  }

  /** A log that keeps its old entries and then holds exactly the added ones is the old log followed by them. */
  lemma LogExtension(log: seq<string>, old_log: seq<string>, added: seq<string>)
    requires |log| == |old_log| + |added| && log[..|old_log|] == old_log
    requires forall i :: 0 <= i < |added| ==> log[|old_log| + i] == added[i]
    ensures log == old_log + added
  {
    forall j | 0 <= j < |log| ensures log[j] == (old_log + added)[j] {
      if j < |old_log| {
        assert log[j] == log[..|old_log|][j];
      } else {
        assert log[|old_log| + (j - |old_log|)] == added[j - |old_log|];
      }
    }
  }

  lemma SplitAround(plan: seq<string>, k: nat)
    requires k < |plan|
    ensures plan[..k] + [plan[k]] == plan[..k + 1]
    ensures plan[..k + 1] + plan[k + 1..] == plan
  {
  }

  /** A plan that fails stops at its first failing message: nothing after it is attempted or logged. */
  lemma SendAllStopsAtFailure(c: Channel, fault: FaultOracle, plan: seq<string>, k: nat)
    requires k < |plan|
    requires SendAll(c, fault, plan[..k]).1
    requires !Send(SendAll(c, fault, plan[..k]).0, fault, plan[k]).1
    ensures SendAll(c, fault, plan) == Send(SendAll(c, fault, plan[..k]).0, fault, plan[k])
  {
    SplitAround(plan, k);
    SendAllSnoc(c, fault, plan[..k], plan[k]);
    SendAllAppend(c, fault, plan[..k + 1], plan[k + 1..]);
  }

  /** The log only grows, by at most one message per entry of the plan. */
  lemma SendAllExtendsLog(c: Channel, fault: FaultOracle, plan: seq<string>)
    ensures c.transmitted <= SendAll(c, fault, plan).0.transmitted
    ensures |SendAll(c, fault, plan).0.transmitted| <= |c.transmitted| + |plan|
  {
    DeliverAllExtendsLog(c, fault, Outcomes(plan));
  }

  // ---------------------------------------------------------------------------
  // Sends whose results are ignored

  /**
   * The messages sent one after the other by callers that ignore the result of each
   * `SendMessageToRobot`: a failed send does not stop the later ones.
   */
  function SendEach(c: Channel, fault: FaultOracle, plan: seq<string>): Channel
    decreases |plan|
  {
    if plan == [] then c
    else Send(SendEach(c, fault, plan[..|plan| - 1]), fault, plan[|plan| - 1]).0
  }

  lemma SendEachSnoc(c: Channel, fault: FaultOracle, p: seq<string>, message: string)
    ensures SendEach(c, fault, p + [message]) == Send(SendEach(c, fault, p), fault, message).0
  {
    assert (p + [message])[..|p|] == p;
  }

  /** Two messages sent one after the other, ignoring both results. */
  lemma SendEachPair(c: Channel, fault: FaultOracle, first: string, second: string)
    ensures SendEach(c, fault, [first, second]) == Send(Send(c, fault, first).0, fault, second).0
  {
    SendEachSnoc(c, fault, [], first);
    SendEachSnoc(c, fault, [first], second);
    assert [] + [first] == [first];
    assert [first] + [second] == [first, second];
  }

  /** Sending p then q, ignoring every result, is sending p + q. */
  lemma {:induction false} SendEachAppend(c: Channel, fault: FaultOracle, p: seq<string>, q: seq<string>)
    ensures SendEach(c, fault, p + q) == SendEach(SendEach(c, fault, p), fault, q)
    decreases |q|
  {
    if q == [] {
      assert p + q == p;
    } else {
      var front := q[..|q| - 1];
      var last := q[|q| - 1];
      assert q == front + [last];
      assert p + q == (p + front) + [last];
      SendEachAppend(c, fault, p, front);
      SendEachSnoc(c, fault, p + front, last);
      SendEachSnoc(SendEach(c, fault, p), fault, front, last);
    }
  }

  /** While nothing fails, ignoring the results changes nothing: the state is the one of the stopping send. */
  lemma {:induction false} SendEachAgreesWithSendAll(c: Channel, fault: FaultOracle, plan: seq<string>)
    requires SendAll(c, fault, plan).1
    ensures SendEach(c, fault, plan) == SendAll(c, fault, plan).0
    decreases |plan|
  {
    if plan != [] {
      var front := plan[..|plan| - 1];
      var last := plan[|plan| - 1];
      SplitLast(plan);
      SendAllSnoc(c, fault, front, last);
      SendEachAgreesWithSendAll(c, fault, front);
    }
  }

  /** Every message the codec accepts reaches the transport, whatever happened to the earlier ones; the log only grows. */
  lemma {:induction false} SendEachAttempts(c: Channel, fault: FaultOracle, plan: seq<string>)
    requires forall i :: 0 <= i < |plan| ==> CorrectMessage(plan[i]).Success?
    ensures SendEach(c, fault, plan).attempts == c.attempts + |plan|
    ensures c.transmitted <= SendEach(c, fault, plan).transmitted
    ensures |SendEach(c, fault, plan).transmitted| <= |c.transmitted| + |plan|
    decreases |plan|
  {
    if plan != [] {
      var front := plan[..|plan| - 1];
      SendEachAttempts(c, fault, front);
      SendExtendsLog(SendEach(c, fault, front), fault, plan[|plan| - 1]);
    }
  }

  /** One more copy of a repeated message. */
  lemma SendEachRepeat(c: Channel, fault: FaultOracle, message: string, n: nat)
    ensures SendEach(c, fault, Repeat(message, n + 1)) == Send(SendEach(c, fault, Repeat(message, n)), fault, message).0
  {
    assert Repeat(message, n + 1) == Repeat(message, n) + [message];
    SendEachSnoc(c, fault, Repeat(message, n), message);
  }

  lemma NoFaultsSplit(fault: FaultOracle, from: nat, a: nat, b: nat)
    requires NoFaults(fault, from, a + b)
    ensures NoFaults(fault, from, a) && NoFaults(fault, from + a, b)
  {
  }

  /** A message the codec accepts, repeated while the transport does not fail, goes through as a whole. */
  lemma SendAllRepeatNoFault(c: Channel, fault: FaultOracle, message: string, n: nat)
    requires CorrectMessage(message).Success?
    requires NoFaults(fault, c.attempts, n)
    ensures SendAll(c, fault, Repeat(message, n)).1
  {
    var plan := Repeat(message, n);
    forall i | 0 <= i < |plan| ensures CorrectMessage(plan[i]).Success? {
      assert plan[i] == message;
    }
    SendAllSuccess(c, fault, plan);
  }

  /** A canonical message repeated n times with no transport failure is logged n times, one attempt each. */
  lemma SendEachRepeatNoFault(c: Channel, fault: FaultOracle, message: string, n: nat)
    requires CorrectMessage(message) == Success(message)
    requires NoFaults(fault, c.attempts, n)
    ensures SendEach(c, fault, Repeat(message, n)).transmitted == c.transmitted + Repeat(message, n)
    ensures SendEach(c, fault, Repeat(message, n)).attempts == c.attempts + n
  {
    var plan := Repeat(message, n);
    SendAllRepeatNoFault(c, fault, message, n);
    SendEachAgreesWithSendAll(c, fault, plan);
    SendAllLog(c, fault, plan);
    if n > 0 {
      SendAllRepeatLog(c, fault, message, n);
    } else {
      assert plan == [];
    }
  }

  /** Two canonical messages, each repeated n times with no transport failure, are logged as sent. */
  lemma SendEachTwoRunsNoFault(c: Channel, fault: FaultOracle, first: string, second: string, n: nat)
    requires CorrectMessage(first) == Success(first) && CorrectMessage(second) == Success(second)
    requires NoFaults(fault, c.attempts, 2 * n)
    ensures SendEach(c, fault, Repeat(first, n) + Repeat(second, n)).transmitted
         == c.transmitted + (Repeat(first, n) + Repeat(second, n))
  {
    var mid := SendEach(c, fault, Repeat(first, n));
    SendEachRepeatNoFault(c, fault, first, n);
    NoFaultsSplit(fault, c.attempts, n, n);
    SendEachRepeatNoFault(mid, fault, second, n);
    SendEachAppend(c, fault, Repeat(first, n), Repeat(second, n));
    AppendAssociates(c.transmitted, Repeat(first, n), Repeat(second, n));
  }

  lemma AppendAssociates(a: seq<string>, b: seq<string>, d: seq<string>)
    ensures (a + b) + d == a + (b + d)
  {
  }

  /** Canonical messages sent with no transport failure all go through and are logged, in order, one attempt each. */
  lemma SendAllNoFault(c: Channel, fault: FaultOracle, plan: seq<string>)
    requires forall i :: 0 <= i < |plan| ==> CorrectMessage(plan[i]) == Success(plan[i])
    requires NoFaults(fault, c.attempts, |plan|)
    ensures var (next, ok) := SendAll(c, fault, plan);
      ok && next.transmitted == c.transmitted + plan && next.attempts == c.attempts + |plan|
  {
    SendAllSuccess(c, fault, plan);
    SendAllLog(c, fault, plan);
    var log := SendAll(c, fault, plan).0.transmitted;
    forall i | 0 <= i < |plan| ensures log[|c.transmitted| + i] == plan[i] {
      assert log[|c.transmitted| + i] == CorrectMessage(plan[i]).value;
    }
    LogExtension(log, c.transmitted, plan);
  }

  /** The same when the results are ignored. */
  lemma SendEachNoFault(c: Channel, fault: FaultOracle, plan: seq<string>)
    requires forall i :: 0 <= i < |plan| ==> CorrectMessage(plan[i]) == Success(plan[i])
    requires NoFaults(fault, c.attempts, |plan|)
    ensures SendEach(c, fault, plan).transmitted == c.transmitted + plan
    ensures SendEach(c, fault, plan).attempts == c.attempts + |plan|
  {
    SendAllNoFault(c, fault, plan);
    SendEachAgreesWithSendAll(c, fault, plan);
  }

  // ---------------------------------------------------------------------------
  // Non-recurrent sends and scripts

  /** A repeated message that went through is logged as that many copies of its canonical form. */
  lemma SendAllRepeatLog(c: Channel, fault: FaultOracle, message: string, n: nat)
    requires n > 0 && SendAll(c, fault, Repeat(message, n)).1
    ensures CorrectMessage(message).Success?
    ensures SendAll(c, fault, Repeat(message, n)).0.transmitted == c.transmitted + Repeat(CorrectMessage(message).value, n)
  {
    var plan := Repeat(message, n);
    SendAllLog(c, fault, plan);
    assert plan[0] == message;
    var log := SendAll(c, fault, plan).0.transmitted;
    var copy := CorrectMessage(message).value;
    forall j | |c.transmitted| <= j < |log| ensures log[j] == copy {
      var i := j - |c.transmitted|;
      assert plan[i] == message;
      assert log[|c.transmitted| + i] == CorrectMessage(plan[i]).value;
    }
    LogRepeat(log, c.transmitted, copy, n);
  }

  lemma LogRepeat(log: seq<string>, old_log: seq<string>, copy: string, n: nat)
    requires |log| == |old_log| + n && log[..|old_log|] == old_log
    requires forall j :: |old_log| <= j < |log| ==> log[j] == copy
    ensures log == old_log + Repeat(copy, n)
  {
    forall i | 0 <= i < n ensures log[|old_log| + i] == Repeat(copy, n)[i] {
      assert log[|old_log| + i] == copy;
    }
    LogExtension(log, old_log, Repeat(copy, n));
  }

  /** On success the message is transmitted R times, then the void companion R times unless it is empty. */
  lemma NonrecurrentSuccess(c: Channel, fault: FaultOracle, message: string, voidMessage: string, repetitions: nat)
    requires repetitions > 0
    requires SendAll(c, fault, NonrecurrentPlan(message, voidMessage, repetitions)).1
    ensures CorrectMessage(message).Success?
    ensures voidMessage != "" ==> CorrectMessage(voidMessage).Success?
    ensures SendAll(c, fault, NonrecurrentPlan(message, voidMessage, repetitions)).0.transmitted
      == c.transmitted + Repeat(CorrectMessage(message).value, repetitions)
         + (if voidMessage == "" then [] else Repeat(CorrectMessage(voidMessage).value, repetitions))
  {
    var first := Repeat(message, repetitions);
    var second := if voidMessage == "" then [] else Repeat(voidMessage, repetitions);
    SendAllAppend(c, fault, first, second);
    SendAllRepeatLog(c, fault, message, repetitions);
    var mid := SendAll(c, fault, first).0;
    if voidMessage != "" {
      SendAllRepeatLog(mid, fault, voidMessage, repetitions);
    } else {
      assert first + second == first;
    }
  }

  /** With canonical messages and no transport failure, a non-recurrent send goes through and logs both runs, one attempt each. */
  lemma NonrecurrentNoFault(c: Channel, fault: FaultOracle, message: string, voidMessage: string, repetitions: nat)
    requires CorrectMessage(message) == Success(message) && CorrectMessage(voidMessage) == Success(voidMessage)
    requires NoFaults(fault, c.attempts, 2 * repetitions)
    ensures var (next, ok) := SendAll(c, fault, NonrecurrentPlan(message, voidMessage, repetitions));
      ok && next.attempts == c.attempts + 2 * repetitions
      && next.transmitted == c.transmitted + Repeat(message, repetitions) + Repeat(voidMessage, repetitions)
  {
    var plan := NonrecurrentPlan(message, voidMessage, repetitions);
    assert voidMessage != "";
    assert |plan| == 2 * repetitions;
    forall i | 0 <= i < |plan| ensures CorrectMessage(plan[i]).Success? {
      assert plan[i] == message || plan[i] == voidMessage;
    }
    SendAllSuccess(c, fault, plan);
    SendAllLog(c, fault, plan);
    if repetitions > 0 {
      NonrecurrentSuccess(c, fault, message, voidMessage, repetitions);
    } else {
      assert plan == [];
    }
  }

  /** The pieces of a script contain no comma and carry no white space at either end. */
  lemma ParseRoboScriptPieces(roboScript: string)
    ensures forall i :: 0 <= i < |ParseRoboScript(roboScript)| ==>
      var piece := ParseRoboScript(roboScript)[i];
      ',' !in piece && (piece == [] || (!IsWhiteSpace(piece[0]) && !IsWhiteSpace(piece[|piece| - 1])))
  {
    var parts := Split(roboScript, ',');
    forall i | 0 <= i < |parts| ensures ',' !in Trim(parts[i]) {
      TrimInside(parts[i]);
    }
  }

  /** Trimming only removes characters. */
  lemma TrimInside(s: string)
    ensures forall c :: c in Trim(s) ==> c in s
  {
    var t := TrimStart(s);
    assert forall c :: c in t ==> c in s;
  }

  /** The last piece of a string after a separator is empty. */
  lemma {:induction false} SplitTrailingSeparator(s: string, sep: char)
    ensures var parts := Split(s + [sep], sep); parts[|parts| - 1] == []
    decreases |s|
  {
    var t := s + [sep];
    if s == [] {
      assert t[1..] == [];
    } else {
      assert t[1..] == s[1..] + [sep];
      SplitTrailingSeparator(s[1..], sep);
      assert Count(t[1..], sep) >= 0;
    }
  }

  /** A script ending in a comma has an empty last piece, which the codec rejects, so its upload fails. */
  lemma TrailingCommaFails(c: Channel, fault: FaultOracle, roboScript: string)
    ensures !SendAll(c, fault, ParseRoboScript(roboScript + ",")).1
  {
    var pieces := ParseRoboScript(roboScript + ",");
    SplitTrailingSeparator(roboScript, ',');
    assert pieces[|pieces| - 1] == [];
    SendAllSuccess(c, fault, pieces);
  }

  // ---------------------------------------------------------------------------
  // The helper object

  /** A communication helper over the abstract transport. */
  class CommunicationHelper {
    /** NonrecurrentMessageRepetitions. */
    var repetitions: nat
    var lastErrorMessage: string
    var lastSentMessage: string
    /** What the transport accepted, in order. */
    var transmitted: seq<string>
    /** How many times the transport was called. */
    var attempts: nat
    /** The transport's behaviour. */
    const fault: FaultOracle

    function State(): Channel
      reads this
    {
      Channel(attempts, transmitted, lastSentMessage, lastErrorMessage)
    }

    constructor(nonrecurrentMessageRepetitions: nat, fault: FaultOracle)
      ensures State() == Channel(0, [], "", "")
      ensures repetitions == nonrecurrentMessageRepetitions && this.fault == fault
    {
      repetitions := nonrecurrentMessageRepetitions;
      lastErrorMessage := "";
      lastSentMessage := "";
      transmitted := [];
      attempts := 0;
      this.fault := fault;
    }

    /** The abstract `TransmitMessage`: the oracle decides whether this attempt throws. */
    method TransmitMessage(message: string) returns (failure: Option<string>)
      modifies this
      ensures failure == fault(old(attempts))
      ensures attempts == old(attempts) + 1
      ensures transmitted == if failure.None? then old(transmitted) + [message] else old(transmitted)
      ensures lastErrorMessage == old(lastErrorMessage) && lastSentMessage == old(lastSentMessage)
      ensures repetitions == old(repetitions)
    {
      failure := fault(attempts);
      if failure.None? {
        transmitted := transmitted + [message];
      }
      attempts := attempts + 1;
    }

    /** `CorrectMessage2`: the canonical form, or "" and the codec's error text in LastErrorMessage. */
    method CorrectMessage2(message: string) returns (ok: bool, correctedMessage: string)
      modifies this
      ensures ok <==> CorrectMessage(message).Success?
      ensures ok ==> correctedMessage == CorrectMessage(message).value && lastErrorMessage == old(lastErrorMessage)
      ensures !ok ==> correctedMessage == "" && lastErrorMessage == ErrorText(CorrectMessage(message).error)
      ensures attempts == old(attempts) && transmitted == old(transmitted)
      ensures lastSentMessage == old(lastSentMessage) && repetitions == old(repetitions)
    {
      match CorrectMessage(message)
      case Success(corrected) =>
        ok, correctedMessage := true, corrected;
      case Failure(e) =>
        ok, correctedMessage := false, "";
        lastErrorMessage := ErrorText(e);
    }

    /** `SendMessageToRobot`. */
    method SendMessageToRobot(message: string) returns (ok: bool)
      modifies this
      ensures (State(), ok) == Send(old(State()), fault, message)
      ensures repetitions == old(repetitions)
    {
      var corrected;
      ok, corrected := CorrectMessage2(message);
      if !ok {
        return;
      }
      var failure := TransmitMessage(corrected);
      if failure.Some? {
        lastErrorMessage := failure.value;
        return false;
      }
      lastSentMessage := corrected;
    }

    /** One of the two `for` loops of `SendNonrecurrentMessageToRobot`: the message n times, returning false at the first failure. */
    method SendRepeatedly(message: string, n: nat) returns (ok: bool)
      modifies this
      ensures (State(), ok) == SendAll(old(State()), fault, Repeat(message, n))
      ensures repetitions == old(repetitions)
    {
      for i := 0 to n
        invariant repetitions == old(repetitions)
        invariant SendAll(old(State()), fault, Repeat(message, i)) == (State(), true)
      {
        SendAllSnoc(old(State()), fault, Repeat(message, i), message);
        assert Repeat(message, i + 1) == Repeat(message, i) + [message];
        ok := SendMessageToRobot(message);
        if !ok {
          assert Repeat(message, n)[..i] == Repeat(message, i) && Repeat(message, n)[i] == message;
          SendAllStopsAtFailure(old(State()), fault, Repeat(message, n), i);
          return;
        }
      }
      ok := true;
    }

    /** `SendNonrecurrentMessageToRobot(message, voidMessage)`. */
    method SendNonrecurrentMessageToRobot(message: string, voidMessage: string) returns (ok: bool)
      modifies this
      ensures (State(), ok) == SendAll(old(State()), fault, NonrecurrentPlan(message, voidMessage, old(repetitions)))
      ensures repetitions == old(repetitions)
    {
      var n := repetitions;
      SendAllAppend(State(), fault, Repeat(message, n), if voidMessage == "" then [] else Repeat(voidMessage, n));
      ok := SendRepeatedly(message, n);
      if !ok {
        return;
      }
      if voidMessage != "" {
        ok := SendRepeatedly(voidMessage, n);
        if !ok {
          return;
        }
      } else {
        assert NonrecurrentPlan(message, voidMessage, n) == Repeat(message, n) + [];
      }
      ok := true;
    }

    /** The one-argument `SendNonrecurrentMessageToRobot(message)`: the two-argument form with an empty void message. */
    method SendNonrecurrentMessageToRobotWithoutVoid(message: string) returns (ok: bool)
      modifies this
      ensures (State(), ok) == SendAll(old(State()), fault, Repeat(message, old(repetitions)))
      ensures repetitions == old(repetitions)
    {
      ok := SendNonrecurrentMessageToRobot(message, "");
      assert NonrecurrentPlan(message, "", repetitions) == Repeat(message, repetitions);
    }

    /** `SendRoboScriptToRobot`: the script's pieces in order, stopping at the first failure. */
    method SendRoboScriptToRobot(roboScript: string) returns (ok: bool)
      modifies this
      ensures (State(), ok) == SendAll(old(State()), fault, ParseRoboScript(roboScript))
      ensures repetitions == old(repetitions)
    {
      var commands := ParseRoboScript(roboScript);
      ghost var start := State();
      var i := 0;
      while i < |commands|
        invariant 0 <= i <= |commands|
        invariant SendAll(start, fault, commands[..i]) == (State(), true)
        invariant repetitions == old(repetitions)
      {
        SplitAround(commands, i);
        SendAllSnoc(start, fault, commands[..i], commands[i]);
        ok := SendMessageToRobot(commands[i]);
        if !ok {
          SendAllStopsAtFailure(start, fault, commands, i);
          return;
        }
        i := i + 1;
      }
      assert commands[..i] == commands;
      ok := true;
    }
  }
}
