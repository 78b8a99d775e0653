/** Concrete runs: the exceptional states the theorems speak of do occur. */
module BpupWitness {
  import opened Prelude
  import opened BpupModel
  import opened BpupInvariant
  import opened BpupClock
  import opened BpupSafety
  import opened BpupStop
  import opened BpupRecovery
  import opened BpupTiming
  import opened BpupPrompt

  lemma {:induction false} RunAppend(s: State, evs: seq<Event>, ev: Event)
    requires CanRun(s, evs) && Can(Run(s, evs), ev)
    ensures CanRun(s, evs + [ev]) && Run(s, evs + [ev]) == Next(Run(s, evs), ev)
    decreases |evs|
  {
    if evs == [] {
      assert evs + [ev] == [ev];
      assert CanRun(Next(s, ev), [ev][1..]) && Run(Next(s, ev), [ev][1..]) == Next(s, ev);
    } else {
      assert (evs + [ev])[1..] == evs[1..] + [ev];
      RunAppend(Next(s, evs[0]), evs[1..], ev);
    }
  }

  lemma ReachableNext(s: State, ev: Event)
    requires Reachable(s) && Can(s, ev)
    ensures Reachable(Next(s, ev))
  {
    var init, evs :| Initial(init) && CanRun(init, evs) && Run(init, evs) == s;
    RunAppend(init, evs, ev);
  }

  /** Connected at time 0 and unheard since the given time: the k-th keep-alive has just been sent. */
  ghost predicate Connected(s: State, k: nat, last: real) {
    && Reachable(s) && Live(s) && s.tasks == [] && s.reconnect == None && s.protocol == Some(0)
    && s.endpoints == [Endpoint(Open, true, Some(if k == 0 then 0 else k + 1))] && s.watchdog == Some(1)
    && s.handles == k + 2 && s.lastMessage == last && s.delay == RECONNECT_MIN_DELAY
    && s.now == 30.0 * k as real && |s.sent| == k + 1 && s.sent[k] == Packet(0, s.now)
    && s.heard == (if last == NEVER then [] else [Packet(0, last)])
    && s.timers == map[1 := Timer(70.0, CheckAlive),
                       if k == 0 then 0 else k + 1 := Timer(s.now + 30.0, KeepAlive(0))]
  }

  lemma Connects() returns (s: State)
    ensures Connected(s, 0, NEVER)
  {
    s := State(0.0, map[], 0, [], Starting(Connecting), [], [], [], NEVER,
               None, None, None, false, RECONNECT_MIN_DELAY);
    assert Reachable(s) by { assert Initial(s) && CanRun(s, []) && Run(s, []) == s; }
    ReachableNext(s, EndpointBuilt(Starter));
    s := Next(s, EndpointBuilt(Starter));
    ReachableNext(s, EndpointMade(0));
    s := Next(s, EndpointMade(0));
    ReachableNext(s, Assigned(Starter));
    s := Next(s, Assigned(Starter));
  }

  lemma HalfMinute(s: State, k: nat, last: real) returns (after: State)
    requires Connected(s, k, last) && k < 2
    ensures Connected(after, k + 1, last)
  {
    var waited := Next(s, TimePasses(30.0));
    ReachableNext(s, TimePasses(30.0));
    var h := if k == 0 then 0 else k + 1;
    ReachableNext(waited, TimerFires(h, 0.0));
    after := Next(waited, TimerFires(h, 0.0));
  }

  /** 70 seconds after connecting, with the third keep-alive sent 10 seconds ago. */
  lemma UntilFirstTick(connected: State, last: real) returns (s: State)
    requires Connected(connected, 0, last)
    ensures exists before ::
              Connected(before, 2, last) && Can(before, TimePasses(10.0)) && s == Next(before, TimePasses(10.0))
    ensures Reachable(s)
  {
    s := HalfMinute(connected, 0, last);
    s := HalfMinute(s, 1, last);
    ReachableNext(s, TimePasses(10.0));
    s := Next(s, TimePasses(10.0));
  }

  /** Ten seconds are one instant too many: from the first endpoint on, some run keeps up with them and dies. */
  lemma TenSecondsTooLate() returns (s: State, evs: seq<Event>, lost: set<nat>)
    ensures Reachable(s) && Live(s) && Alone(s, 0)
    ensures KeptUp(s, evs, 0, lost, By(10.0)) && !Alive(Run(Answered(s, 0), evs))
  {
    s := Connects();
    ReachableFull(s);
    evs, lost := SlowAnswers(s, 0, By(10.0));
  }

  lemma DropsAtFirstTick() returns (s: State)
    ensures Reachable(s) && Live(s) && s.protocol == None && s.tasks == [Task(Sleeping(71.0), false)] && s.now == 70.0
    ensures |s.endpoints| == 1 && s.endpoints[0] == Endpoint(Closing, false, None)
    ensures s.delay == 2.0 && s.reconnect == Some(0)
    ensures s.timers == map[4 := Timer(140.0, CheckAlive)] && s.watchdog == Some(4) && s.handles == 5
  {
    s := Connects();
    s := UntilFirstTick(s, NEVER);
    ReachableNext(s, TimerFires(1, 0.0));
    s := Next(s, TimerFires(1, 0.0));
  }

  /** A bridge that never answers: after 71 seconds the client is connecting again, holding no protocol. */
  lemma ReconnectsWithoutProtocol() returns (s: State)
    ensures Reachable(s) && Live(s) && s.protocol == None && s.tasks == [Task(Connecting, false)]
    ensures |s.endpoints| == 1 && s.endpoints[0] == Endpoint(Closing, false, None)
    ensures s.delay == 2.0 && s.reconnect == Some(0)
    ensures s.timers == map[4 := Timer(140.0, CheckAlive)] && s.watchdog == Some(4) && s.handles == 5 && s.now == 71.0
  {
    s := DropsAtFirstTick();
    ReachableNext(s, TimePasses(1.0));
    s := Next(s, TimePasses(1.0));
    ReachableNext(s, SleepOver(0));
    s := Next(s, SleepOver(0));
  }

  /** One failed attempt there strands the client for good. */
  lemma StrandedOccurs() returns (s: State)
    ensures Reachable(s) && Stranded(s)
  {
    s := ReconnectsWithoutProtocol();
    ReachableNext(s, ConnectFails(Worker(0), 0.0));
    s := Next(s, ConnectFails(Worker(0), 0.0));
  }

  /** stop() can find an endpoint whose connection_made is still queued, and then a keep-alive follows it. */
  lemma KeepAliveAfterStopOccurs() returns (s: State)
    ensures Reachable(s) && s.stopped && HasBuilt(s)
  {
    s := ReconnectsWithoutProtocol();
    ReachableNext(s, EndpointBuilt(Worker(0)));
    s := Next(s, EndpointBuilt(Worker(0)));
    assert s.endpoints[1].link == Built;
    ReachableNext(s, StopCalled);
    s := Next(s, StopCalled);
    assert s.endpoints[1].link == Built;
  }

  /** ...and push can even be alive again. */
  lemma AliveAfterStopOccurs() returns (s: State, evs: seq<Event>)
    ensures Reachable(s) && s.stopped && CanHear(s, evs) && Alive(Run(s, evs))
  {
    s := KeepAliveAfterStopOccurs();
    var e: nat :| e < |s.endpoints| && s.endpoints[e].link == Built;
    evs := [EndpointMade(e), Datagram(e, true)];
    MadeHears(s, e);
    var made := Next(s, evs[0]);
    assert evs[1..] == [Datagram(e, true)] && LinkIs(made, e, Open);
    OpenHears(made, e);
    assert Run(s, evs) == Run(made, evs[1..]) == Next(made, Datagram(e, true));
  }

  /** The second endpoint, assigned at 71 s with the first still draining; it sends every 30 s from there. */
  ghost predicate Second(s: State, k: nat) {
    && Reachable(s) && Live(s) && s.protocol == Some(1) && s.tasks == [Task(Done, false)] && s.watchdog == Some(4)
    && |s.endpoints| == 2 && s.endpoints[1] == Endpoint(Open, true, Some(k + 5)) && s.handles == k + 6
    && s.now == 71.0 + 30.0 * k as real && s.reconnect == Some(0) && s.delay == 2.0
    && s.timers == map[4 := Timer(140.0, CheckAlive), k + 5 := Timer(s.now + 30.0, KeepAlive(1))]
  }

  lemma Reconnects() returns (s: State)
    ensures Second(s, 0) && s.endpoints[0] == Endpoint(Closing, false, None)
  {
    s := ReconnectsWithoutProtocol();
    ReachableNext(s, EndpointBuilt(Worker(0)));
    s := Next(s, EndpointBuilt(Worker(0)));
    ReachableNext(s, EndpointMade(1));
    s := Next(s, EndpointMade(1));
    ReachableNext(s, Assigned(Worker(0)));
    s := Next(s, Assigned(Worker(0)));
  }

  ghost predicate SecondWiped(s: State, k: nat) {
    Second(s, k) && s.endpoints[0].link == Lost && s.lastMessage == NEVER
  }

  lemma SecondHalfMinute(s: State, k: nat)
    requires k < 2 && SecondWiped(s, k)
    ensures Can(s, TimePasses(30.0)) && Can(Next(s, TimePasses(30.0)), TimerFires(k + 5, 0.0))
    ensures SecondWiped(Next(Next(s, TimePasses(30.0)), TimerFires(k + 5, 0.0)), k + 1)
  {
    ReachableNext(s, TimePasses(30.0));
    ReachableNext(Next(s, TimePasses(30.0)), TimerFires(k + 5, 0.0));
  }

  lemma HalfMinuteMore(from: State, evs: seq<Event>, k: nat) returns (more: seq<Event>)
    requires CanRun(from, evs) && k < 2 && SecondWiped(Run(from, evs), k)
    ensures CanRun(from, more) && SecondWiped(Run(from, more), k + 1)
  {
    SecondHalfMinute(Run(from, evs), k);
    RunAppend(from, evs, TimePasses(30.0));
    RunAppend(from, evs + [TimePasses(30.0)], TimerFires(k + 5, 0.0));
    more := evs + [TimePasses(30.0)] + [TimerFires(k + 5, 0.0)];
  }

  /** The second endpoint is heard, and then the first one's loss is reported. */
  lemma HeardThenWiped() returns (s: State, evs: seq<Event>)
    ensures Second(s, 0) && s.lastMessage == 71.0
    ensures CanRun(s, evs) && SecondWiped(Run(s, evs), 0)
  {
    s := Reconnects();
    var heard, lost := Datagram(1, true), LostReported(0, 0.0);
    ReachableNext(s, heard);
    s := Next(s, heard);
    ReachableNext(s, lost);
    assert CanRun(s, []) && Run(s, []) == s;
    RunAppend(s, [], lost);
    evs := [] + [lost];
  }

  lemma WipedTickCloses(s: State)
    requires SecondWiped(s, 2)
    ensures Can(s, TimePasses(9.0))
    ensures var at := Next(s, TimePasses(9.0));
            && Live(at) && at.protocol == Some(1) && LinkIs(at, 1, Open) && at.now == 140.0
            && at.watchdog == Some(4) && Can(at, TimerFires(4, 0.0))
            && LinkIs(Next(at, TimerFires(4, 0.0)), 1, Closing)
  {
    var later := TimePasses(9.0);
    ReachableNext(s, later);
    ReachableFull(Next(s, later));
    TickCloses(Next(s, later), 1, 4, 0.0);
  }

  /**
    A tick can close an endpoint before 70 seconds of silence are over: heard at 71 s, the second
    endpoint is closed at 140 s because the first one's loss was reported in between.
   */
  lemma ClosedEarlyOccurs() returns (s: State, evs: seq<Event>)
    ensures Reachable(s) && LinkIs(s, 1, Open) && s.lastMessage == s.now == 71.0 && CanRun(s, evs)
    ensures var at := Run(s, evs);
            && Live(at) && at.protocol == Some(1) && LinkIs(at, 1, Open) && at.now == 140.0
            && at.watchdog == Some(4) && Can(at, TimerFires(4, 0.0))
            && LinkIs(Next(at, TimerFires(4, 0.0)), 1, Closing)
  {
    s, evs := HeardThenWiped();
    evs := HalfMinuteMore(s, evs, 0);
    evs := HalfMinuteMore(s, evs, 1);
    WipedTickCloses(Run(s, evs));
    RunAppend(s, evs, TimePasses(9.0));
    evs := evs + [TimePasses(9.0)];
  }
}
