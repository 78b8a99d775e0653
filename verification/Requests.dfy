/** Bond.__call: one retry on a shared session, and never of a write the bridge may have run. */
module Requests {
  datatype Verb = Get | Patch | Post | Delete | Put

  predicate Idempotent(verb: Verb) { verb.Get? }

  /**
    How one attempt ends, and whether the bridge ran the request. A connector error means the
    connection was never made; after any other failure the request may have run.
   */
  datatype Attempt =
    | Returned
    | ConnectorError              // ClientConnectorError, a ClientOSError
    | ConnectionError(ran: bool)  // any other ClientOSError, or ServerDisconnectedError
    | OtherError(ran: bool)       // timeouts, HTTP error statuses, undecodable answers

  predicate Ran(a: Attempt) {
    match a
    case Returned => true
    case ConnectorError => false
    case ConnectionError(ran) => ran
    case OtherError(ran) => ran
  }

  function Count(b: bool): nat { if b then 1 else 0 }

  /** A call, with how its attempts would end. */
  datatype Call = Call(verb: Verb, first: Attempt, second: Attempt)

  datatype Outcome = Outcome(returned: bool, attempts: nat, runs: nat)

  /** The retry rule. */
  predicate Replays(hasSession: bool, call: Call) {
    hasSession && (call.first.ConnectorError? || (call.first.ConnectionError? && Idempotent(call.verb)))
  }

  function Perform(hasSession: bool, call: Call): Outcome {
    if Replays(hasSession, call)
    then Outcome(call.second.Returned?, 2, Count(Ran(call.first)) + Count(Ran(call.second)))
    else Outcome(call.first.Returned?, 1, Count(Ran(call.first)))
  }

  /** A write runs at most once, and exactly once if the call returns; nothing is tried a third time. */
  lemma WritesAtMostOnce(hasSession: bool, call: Call)
    ensures var o := Perform(hasSession, call);
            && 1 <= o.attempts <= 2
            && (call.verb != Get ==> o.runs <= 1 && (o.returned ==> o.runs == 1))
            && (o.returned ==> o.runs >= 1)
  {}

  /**
    A read is tried again exactly when the first attempt ends in a connection error on a shared session,
    and then its second attempt decides; without a shared session nothing is tried again.
   */
  lemma ReadsTriedTwice(hasSession: bool, call: Call)
    ensures var o := Perform(hasSession, call);
            && (call.verb == Get ==>
                  (o.attempts == 2 <==> hasSession && (call.first.ConnectorError? || call.first.ConnectionError?)))
            && (!hasSession ==> o.attempts == 1)
            && (o.attempts == 2 ==> (o.returned <==> call.second.Returned?))
            && (o.attempts == 1 ==> (o.returned <==> call.first.Returned?))
  {}

  /** The rule is as generous as it can be: a write is replayed exactly when no replay can run it twice. */
  lemma ReplayedIffHarmless(verb: Verb, first: Attempt)
    requires verb != Get && (first.ConnectorError? || first.ConnectionError?)
    ensures Replays(true, Call(verb, first, Returned)) <==>
              forall actual: Attempt, second: Attempt |
                actual == first || (first.ConnectionError? && actual.ConnectionError?) ::
                Count(Ran(actual)) + Count(Ran(second)) <= 1
  {
    if first.ConnectionError? {
      var actual := ConnectionError(true);
      assert Count(Ran(actual)) + Count(Ran(Returned)) == 2;
    }
  }

  // ----- any sequence of calls

  function Runs(hasSession: bool, calls: seq<Call>): nat {
    if calls == [] then 0 else Perform(hasSession, calls[0]).runs + Runs(hasSession, calls[1..])
  }

  function Raised(hasSession: bool, calls: seq<Call>): nat {
    if calls == [] then 0 else Count(!Perform(hasSession, calls[0]).returned) + Raised(hasSession, calls[1..])
  }

  /** Of n writes, those that returned ran once each and those that raised at most once. */
  lemma {:induction false} RunsOfWrites(hasSession: bool, calls: seq<Call>)
    requires forall c | c in calls :: c.verb != Get
    ensures |calls| - Raised(hasSession, calls) <= Runs(hasSession, calls) <= |calls|
  {
    if calls != [] {
      WritesAtMostOnce(hasSession, calls[0]);
      RunsOfWrites(hasSession, calls[1..]);
    }
  }

  /** What a device that flips at every executed Toggle shows. */
  function Toggled(on: bool, times: nat): bool { if times % 2 == 0 then on else !on }

  class Bridge {
    var on: bool
    var ran: nat

    /** The bridge may run a Toggle request. */
    method Handle(a: Attempt)
      modifies this
      ensures ran == old(ran) + Count(Ran(a)) && on == Toggled(old(on), Count(Ran(a)))
    {
      if Ran(a) {
        ran := ran + 1;
        on := !on;
      }
    }
  }

  class Bond {
    const bridge: Bridge
    const hasSession: bool

    constructor (bridge: Bridge, hasSession: bool)
      ensures this.bridge == bridge && this.hasSession == hasSession
    {
      this.bridge, this.hasSession := bridge, hasSession;
    }

    method Call(call: Call) returns (returned: bool, ghost attempts: nat)
      modifies bridge
      ensures attempts == Perform(hasSession, call).attempts
      ensures call.verb != Get ==> old(bridge.ran) <= bridge.ran <= old(bridge.ran) + 1
      ensures call.verb != Get && returned ==> bridge.ran == old(bridge.ran) + 1
      ensures returned == Perform(hasSession, call).returned
      ensures bridge.ran == old(bridge.ran) + Perform(hasSession, call).runs
      ensures bridge.on == Toggled(old(bridge.on), Perform(hasSession, call).runs)
    {
      bridge.Handle(call.first);
      if !hasSession { return call.first.Returned?, 1; }
      match call.first
      case ConnectorError =>
        bridge.Handle(call.second);
        return call.second.Returned?, 2;
      case ConnectionError(_) =>
        if !Idempotent(call.verb) { return false, 1; }
        bridge.Handle(call.second);
        return call.second.Returned?, 2;
      case _ =>
        return call.first.Returned?, 1;
    }

    /** n Toggle calls that all return leave the device in the state of parity n. */
    method ToggleAll(calls: seq<Call>) returns (raised: nat)
      requires forall c | c in calls :: c.verb == Put
      modifies bridge
      ensures raised == 0 ==> bridge.ran == old(bridge.ran) + |calls| && bridge.on == Toggled(old(bridge.on), |calls|)
      ensures old(bridge.ran) + |calls| - raised <= bridge.ran <= old(bridge.ran) + |calls|
    {
      raised := 0;
      for i := 0 to |calls|
        invariant raised <= i
        invariant old(bridge.ran) + i - raised <= bridge.ran <= old(bridge.ran) + i
        invariant bridge.on == Toggled(old(bridge.on), bridge.ran - old(bridge.ran))
      {
        WritesAtMostOnce(hasSession, calls[i]);
        var returned, _ := this.Call(calls[i]);
        if !returned { raised := raised + 1; }
      }
    }
  }
}
