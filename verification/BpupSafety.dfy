/** Single flight, the finality of stop(), and the backoff: over every interleaving. */
module BpupSafety {
  import opened Prelude
  import opened BpupModel
  import opened BpupInvariant
  import opened BpupClock

  // ----- single flight

  predicate Armed(s: State, h: nat, callback: Callback) { h in s.timers && s.timers[h].callback == callback }

  /** An endpoint datagrams can still flow through, or will as soon as its connection_made runs. */
  predicate InService(s: State, e: nat) { LinkIs(s, e, Built) || LinkIs(s, e, Open) }

  lemma SingleFlight(s: State)
    requires Reachable(s)
    ensures forall t, u | Unfinished(s, t) && Unfinished(s, u) :: t == u
    ensures forall h, k | Armed(s, h, CheckAlive) && Armed(s, k, CheckAlive) :: h == k
    ensures s.startup.Running? && !s.stopped <==> exists h :: Armed(s, h, CheckAlive)
    ensures forall h, k, e | Armed(s, h, KeepAlive(e)) && Armed(s, k, KeepAlive(e)) :: h == k
    ensures forall e, f | InService(s, e) && InService(s, f) :: e == f
    ensures forall e: nat | InService(s, e) ::
              || s.protocol == Some(e) || Start(s) == Handshake(e)
              || exists t: nat :: Unfinished(s, t) && s.tasks[t].at == Handshake(e)
    ensures !s.stopped && s.protocol.Some? && (exists t :: Unfinished(s, t)) ==> LinkIs(s, s.protocol.value, Lost)
  {
    ReachableFull(s);
    var last := |s.tasks| - 1;
    if s.startup.Running? && !s.stopped {
      assert Armed(s, s.watchdog.value, CheckAlive);
    }
    forall e: nat | InService(s, e)
      ensures || s.protocol == Some(e) || Start(s) == Handshake(e)
              || exists t: nat :: Unfinished(s, t) && s.tasks[t].at == Handshake(e)
    {
      if Current(s).Handshake? {
        assert Unfinished(s, last) && s.tasks[last].at == Handshake(e);
      }
    }
  }

  // ----- stop() is final

  /** What stop() leaves behind and no later callback touches. */
  ghost predicate Halted(s: State, after: State) {
    && after.stopped && after.protocol == None && after.watchdog == None && after.reconnect == None
    && |after.tasks| == |s.tasks| && |after.endpoints| == |s.endpoints| && after.delay == s.delay
    && forall h | h in after.timers :: after.timers[h].callback.KeepAlive?
  }

  predicate HasBuilt(s: State) { exists e | 0 <= e < |s.endpoints| :: s.endpoints[e].link == Built }

  /** The only keep-alive that can follow stop(): the connection_made queued before it. */
  ghost predicate SentAfterStop(s: State, after: State) {
    || after.sent == s.sent
    || (HasBuilt(s) && after.sent == s.sent + [Packet(|s.endpoints| - 1, s.now)])
  }

  /** Everything stop() promises between two later states. */
  ghost predicate Inert(s: State, after: State) {
    && Halted(s, after) && SentAfterStop(s, after)
    && (HasBuilt(after) ==> HasBuilt(s) && after.now == s.now && after.sent == s.sent)
  }

  lemma StoppedStep(s: State, ev: Event)
    requires FullInv(s) && s.stopped && Can(s, ev)
    ensures Inert(s, Next(s, ev))
  {
    match ev
    case EndpointMade(e) => StoppedMade(s, e);
    case TimerFires(h, jitter) => StoppedTimer(s, h);
    case StopCalled => SecondStop(s);
    case LostReported(e, jitter) => StoppedLost(s, e, jitter);
    case _ => StoppedOther(s, ev);
  }

  lemma StoppedMade(s: State, e: nat)
    requires Inv(s) && s.stopped && LinkIs(s, e, Built)
    ensures Halted(s, ConnectionMade(s, e)) && !HasBuilt(ConnectionMade(s, e))
    ensures ConnectionMade(s, e).sent == s.sent + [Packet(|s.endpoints| - 1, s.now)]
  {
    assert e == |s.endpoints| - 1;
  }

  /** A keep-alive timer still armed after stop() finds its transport closing. */
  lemma StoppedTimer(s: State, h: nat)
    requires Inv(s) && ClockInv(s) && s.stopped && h in s.timers && s.timers[h].due <= s.now
    ensures s.timers[h].callback.KeepAlive?
    ensures var e := s.timers[h].callback.ep;
            var fired := s.(timers := s.timers - {h});
            e < |s.endpoints| && SendKeepAlive(fired, e) == fired && Halted(s, fired)
  {}

  lemma StoppedLost(s: State, e: nat, jitter: real)
    requires TasksInv(s) && ProtocolInv(s) && TimersInv(s) && s.stopped && Can(s, LostReported(e, jitter))
    ensures var after := Next(s, LostReported(e, jitter));
            Halted(s, after) && after.sent == s.sent && after.now == s.now && (HasBuilt(after) ==> HasBuilt(s))
  {
    LostIsRetire(s, e, jitter);
  }

  lemma StoppedOther(s: State, ev: Event)
    requires Inv(s) && s.stopped && Can(s, ev)
    requires !ev.EndpointMade? && !ev.TimerFires? && !ev.StopCalled? && !ev.LostReported?
    ensures Halted(s, Next(s, ev)) && Next(s, ev).sent == s.sent
    ensures HasBuilt(Next(s, ev)) ==> HasBuilt(s) && Next(s, ev).now == s.now
  {}

  /** A later stop() changes nothing. */
  lemma SecondStop(s: State)
    requires Inv(s) && s.stopped
    ensures Stop(s) == s
  {}

  lemma InertTrans(s: State, mid: State, after: State)
    requires Inert(s, mid) && Inert(mid, after)
    ensures Inert(s, after)
  {}

  lemma {:induction false} StoppedRun(s: State, evs: seq<Event>)
    requires FullInv(s) && s.stopped && CanRun(s, evs)
    ensures Inert(s, Run(s, evs))
    decreases |evs|
  {
    if evs == [] {
      StillStopped(s);
    } else {
      StoppedStep(s, evs[0]);
      NextFull(s, evs[0]);
      StoppedRun(Next(s, evs[0]), evs[1..]);
      InertTrans(s, Next(s, evs[0]), Run(s, evs));
    }
  }

  lemma StillStopped(s: State)
    requires Inv(s) && s.stopped
    ensures Inert(s, s)
  {}

  lemma StopFull(s: State)
    requires Reachable(s) && Can(s, StopCalled)
    ensures FullInv(Stop(s)) && Stop(s).stopped && ProtocolInv(s)
  {
    ReachableFull(s);
    StopIsNext(s);
    NextFull(s, StopCalled);
  }

  lemma StopIsNext(s: State)
    requires Can(s, StopCalled)
    ensures Next(s, StopCalled) == Stop(s) && Stop(s).stopped
  {}

  /** After stop(), whatever the task was doing: for every continuation of every run. */
  lemma StopIsFinal(s: State, evs: seq<Event>)
    requires Reachable(s) && Can(s, StopCalled) && CanRun(Stop(s), evs)
    ensures Halted(s, Run(Stop(s), evs))
    ensures SentAfterStop(s, Run(Stop(s), evs))
  {
    StopFull(s);
    StoppedRun(Stop(s), evs);
    StopKeepsBuilt(s);
    StoppedSince(s, Stop(s), Run(Stop(s), evs));
  }

  /** A stop() at any later time changes nothing at all. */
  lemma LaterStopChangesNothing(s: State, evs: seq<Event>)
    requires Reachable(s) && Can(s, StopCalled) && CanRun(Stop(s), evs)
    ensures ProtocolKnown(Run(Stop(s), evs)) && Stop(Run(Stop(s), evs)) == Run(Stop(s), evs)
  {
    StopFull(s);
    RunFull(Stop(s), evs);
    StoppedRun(Stop(s), evs);
    SecondStop(Run(Stop(s), evs));
  }

  lemma StoppedSince(s: State, stopped: State, after: State)
    requires Halted(stopped, after) && SentAfterStop(stopped, after)
    requires HasBuilt(stopped) == HasBuilt(s) && stopped.sent == s.sent && stopped.now == s.now
    requires |stopped.tasks| == |s.tasks| && |stopped.endpoints| == |s.endpoints| && stopped.delay == s.delay
    ensures Halted(s, after) && SentAfterStop(s, after)
  {}

  lemma StopKeepsBuilt(s: State)
    requires ProtocolInv(s) && ProtocolKnown(s)
    ensures HasBuilt(Stop(s)) == HasBuilt(s) && Stop(s).sent == s.sent && Stop(s).now == s.now
    ensures |Stop(s).tasks| == |s.tasks| && |Stop(s).endpoints| == |s.endpoints| && Stop(s).delay == s.delay
  {
    HaltKeeps(s);
    if s.protocol.Some? { ProtocolStopKeeps(Halt(s), s.protocol.value); }
  }

  lemma HaltKeeps(s: State)
    ensures Halt(s).endpoints == s.endpoints && Halt(s).sent == s.sent && Halt(s).now == s.now
    ensures |Halt(s).tasks| == |s.tasks| && Halt(s).delay == s.delay
  {}

  lemma ProtocolStopKeeps(s: State, e: nat)
    requires e < |s.endpoints|
    ensures var after := ProtocolStop(s, e);
            && HasBuilt(after) == HasBuilt(s) && after.sent == s.sent && after.now == s.now
            && after.tasks == s.tasks && |after.endpoints| == |s.endpoints| && after.delay == s.delay
  {
    var after := ProtocolStop(s, e);
    assert forall i | 0 <= i < |s.endpoints| :: after.endpoints[i].link == Built <==> s.endpoints[i].link == Built;
  }

  /** Exactly when a keep-alive can still go out: stop() found an endpoint whose connection_made was queued. */
  lemma KeepAliveAfterStop(s: State)
    requires Reachable(s) && s.stopped
    ensures (exists evs :: CanRun(s, evs) && Run(s, evs).sent != s.sent) <==> HasBuilt(s)
  {
    ReachableFull(s);
    forall evs | CanRun(s, evs) && Run(s, evs).sent != s.sent
      ensures HasBuilt(s)
    {
      StoppedRun(s, evs);
    }
    if HasBuilt(s) {
      var e: nat :| e < |s.endpoints| && s.endpoints[e].link == Built;
      var evs := [EndpointMade(e)];
      assert CanRun(s, evs) by { assert CanRun(Next(s, evs[0]), evs[1..]); }
      assert Run(s, evs) == Run(Next(s, evs[0]), evs[1..]) == ConnectionMade(s, e);
      assert |Run(s, evs).sent| == |s.sent| + 1 by { StoppedMade(s, e); }
    }
  }

  // ----- what stop() itself does

  /** The endpoint's part in the client is over: no timer, no way back, no open transport. */
  ghost predicate Dismissed(s: State, e: nat) {
    && e < |s.endpoints| && !s.endpoints[e].wired && s.endpoints[e].keepAlive == None
    && s.endpoints[e].link != Open && forall h | h in s.timers :: s.timers[h].callback != KeepAlive(e)
  }

  /** stop() dismisses the protocol and cancels what is under way; where there was a protocol, push is dead at once. */
  lemma StopDoes(s: State)
    requires Reachable(s) && Can(s, StopCalled)
    ensures Alive(Stop(s)) <==> s.protocol == None && Alive(s)
    ensures s.protocol.Some? ==> Dismissed(Stop(s), s.protocol.value)
    ensures forall t: nat | Unfinished(s, t) :: Unfinished(Stop(s), t) && Stop(s).tasks[t].cancelled
    ensures forall e | 0 <= e < |s.endpoints| && s.protocol != Some(e) :: Stop(s).endpoints[e] == s.endpoints[e]
  {
    ReachableFull(s);
    StopFull(s);
    HaltClock(s);
    HaltTimers(s);
    if s.protocol.Some? { StopDismisses(Halt(s), s.protocol.value); }
  }

  lemma HaltClock(s: State)
    requires TasksInv(s)
    ensures Halt(s).endpoints == s.endpoints && Halt(s).lastMessage == s.lastMessage && Halt(s).now == s.now
    ensures forall t: nat | Unfinished(s, t) :: Unfinished(Halt(s), t) && Halt(s).tasks[t].cancelled
  {}

  lemma StopDismisses(s: State, e: nat)
    requires TimersInv(s) && e < |s.endpoints|
    ensures var after := ProtocolStop(s, e);
            && Dismissed(after, e) && after.lastMessage == NEVER && after.now == s.now && after.tasks == s.tasks
            && forall i | 0 <= i < |s.endpoints| && i != e :: after.endpoints[i] == s.endpoints[i]
  {}

  // ----- every endpoint drains to closed

  predicate AllLost(s: State) { forall e | 0 <= e < |s.endpoints| :: s.endpoints[e].link == Lost }

  function Weight(link: Link): nat {
    match link case Built => 3 case Open => 2 case Closing => 1 case Lost => 0
  }

  /** How many transport steps the endpoints are away from closed. */
  function Undrained(endpoints: seq<Endpoint>): nat {
    if endpoints == [] then 0 else Weight(endpoints[0].link) + Undrained(endpoints[1..])
  }

  lemma {:induction false} UndrainedFalls(a: seq<Endpoint>, b: seq<Endpoint>)
    requires |a| == |b| && forall i | 0 <= i < |a| :: Weight(b[i].link) <= Weight(a[i].link)
    ensures Undrained(b) <= Undrained(a)
    ensures (exists i | 0 <= i < |a| :: Weight(b[i].link) < Weight(a[i].link)) ==> Undrained(b) < Undrained(a)
  {
    if a != [] {
      UndrainedFalls(a[1..], b[1..]);
      if i :| 0 <= i < |a| && Weight(b[i].link) < Weight(a[i].link) {
        if i > 0 { assert Weight(b[1..][i - 1].link) < Weight(a[1..][i - 1].link); }
      }
    }
  }

  /** No step after stop() moves any transport away from closed. */
  lemma StoppedDescends(s: State, ev: Event)
    requires FullInv(s) && s.stopped && Can(s, ev)
    ensures Undrained(Next(s, ev).endpoints) <= Undrained(s.endpoints)
  {
    StoppedStep(s, ev);
    NoneHeavier(s, ev);
    UndrainedFalls(s.endpoints, Next(s, ev).endpoints);
  }

  lemma NoneHeavier(s: State, ev: Event)
    requires s.stopped && s.protocol == None && Can(s, ev) && |Next(s, ev).endpoints| == |s.endpoints|
    ensures forall i | 0 <= i < |s.endpoints| :: Weight(Next(s, ev).endpoints[i].link) <= Weight(s.endpoints[i].link)
  {
    if ev.LostReported? { LostIsRetire(s, ev.ep, ev.jitter); }
  }

  /** A step of the transport of endpoint e towards closed. */
  predicate Drains(s: State, ev: Event, e: nat)
    requires e < |s.endpoints|
  {
    || ev == EndpointMade(e)
    || ev == LostReported(e, 0.0)
    || (ev.CancelDelivered? && ev.task < |s.tasks| && s.tasks[ev.task].at == Handshake(e)
        && s.endpoints[e].link == Open)
  }

  /** While some endpoint is not closed, a step that brings one closer is possible. */
  lemma StoppedProgress(s: State) returns (ev: Event)
    requires FullInv(s) && s.stopped && !AllLost(s)
    ensures Can(s, ev) && Undrained(Next(s, ev).endpoints) < Undrained(s.endpoints)
    ensures FullInv(Next(s, ev)) && Next(s, ev).stopped
  {
    var e;
    e, ev := NextDrain(s);
    NextFull(s, ev);
    StoppedStep(s, ev);
    Lighter(s, ev, e);
    NoneHeavier(s, ev);
    UndrainedFalls(s.endpoints, Next(s, ev).endpoints);
  }

  lemma NextDrain(s: State) returns (e: nat, ev: Event)
    requires InvBesidesTimers(s) && s.stopped && !AllLost(s)
    ensures e < |s.endpoints| && Drains(s, ev, e) && Can(s, ev)
  {
    e :| e < |s.endpoints| && s.endpoints[e].link != Lost;
    ev := if s.endpoints[e].link == Built then EndpointMade(e)
    else if s.endpoints[e].link == Open then CancelDelivered(|s.tasks| - 1)
    else LostReported(e, 0.0);
  }

  lemma Lighter(s: State, ev: Event, e: nat)
    requires e < |s.endpoints| && Drains(s, ev, e) && Can(s, ev) && |Next(s, ev).endpoints| == |s.endpoints|
    ensures Weight(Next(s, ev).endpoints[e].link) < Weight(s.endpoints[e].link)
  {
    if ev.LostReported? { LostIsRetire(s, e, 0.0); }
  }

  predicate DrainedBy(s: State, evs: seq<Event>) { CanRun(s, evs) && AllLost(Run(s, evs)) }

  /** Every endpoint drains to closed: from each state after stop(), some run closes them all. */
  lemma {:induction false} StoppedDrains(s: State) returns (evs: seq<Event>)
    requires FullInv(s) && s.stopped
    ensures |evs| <= Undrained(s.endpoints) && DrainedBy(s, evs)
    decreases Undrained(s.endpoints)
  {
    if AllLost(s) {
      evs := [];
    } else {
      var ev := StoppedProgress(s);
      var rest := StoppedDrains(Next(s, ev));
      DrainedAfter(s, ev, rest);
      evs := [ev] + rest;
    }
  }

  lemma DrainedAfter(s: State, ev: Event, rest: seq<Event>)
    requires Can(s, ev) && DrainedBy(Next(s, ev), rest)
    ensures DrainedBy(s, [ev] + rest)
  {
    assert ([ev] + rest)[1..] == rest;
  }

  // ----- backoff

  function BackoffDelay(k: nat): real {
    if Pow2(k) as real < 60.0 then Pow2(k) as real else 60.0
  }

  predicate Schedules(s: State, ev: Event)
    requires Can(s, ev)
  {
    |Next(s, ev).tasks| > |s.tasks|
  }

  predicate FindsDead(s: State, ev: Event) {
    ev.TimerFires? && ev.handle in s.timers && s.timers[ev.handle].callback == CheckAlive && !Alive(s)
  }

  function BackoffsAfter(s: State, ev: Event, k: nat): nat
    requires Can(s, ev)
  {
    var base := if FindsDead(s, ev) then 0 else k;
    if Schedules(s, ev) then base + 1 else base
  }

  /** Reconnects scheduled since the watchdog last found the push dead, given k before the run. */
  function Backoffs(s: State, evs: seq<Event>, k: nat): nat
    requires CanRun(s, evs)
    decreases |evs|
  {
    if evs == [] then k else Backoffs(Next(s, evs[0]), evs[1..], BackoffsAfter(s, evs[0], k))
  }

  ghost predicate BackoffKept(s: State, base: nat, after: State) {
    if |after.tasks| > |s.tasks|
    then after.delay == BackoffDelay(base + 1) && Current(after).Sleeping?
         && BackoffDelay(base) <= Current(after).wake - s.now <= BackoffDelay(base) * 1.5 <= 90.0
    else after.delay == BackoffDelay(base)
  }

  lemma BackoffStep(s: State, ev: Event, k: nat)
    requires Inv(s) && Can(s, ev) && s.delay == BackoffDelay(k)
    ensures BackoffKept(s, if FindsDead(s, ev) then 0 else k, Next(s, ev))
  {
    match ev
    case ConnectFails(who, jitter) => if who.Worker? { RetrySuppressed(s, who.task, jitter); }
    case LostReported(e, jitter) => BackoffLost(s, e, jitter, k);
    case TimerFires(h, jitter) => if s.timers[h].callback == CheckAlive { BackoffTick(s, h, jitter, k); }
    case _ => BackoffOther(s, ev, k);
  }

  lemma BackoffOther(s: State, ev: Event, k: nat)
    requires Can(s, ev) && s.delay == BackoffDelay(k)
    requires !ev.ConnectFails? && !ev.LostReported? && !ev.TimerFires?
    ensures BackoffKept(s, k, Next(s, ev))
  {}

  lemma BackoffScheduled(s: State, jitter: real, k: nat)
    requires s.delay == BackoffDelay(k) && JitterFits(s.delay, jitter)
    ensures BackoffKept(s, k, ScheduleReconnect(s, jitter))
  {}

  lemma BackoffLost(s: State, e: nat, jitter: real, k: nat)
    requires Can(s, LostReported(e, jitter)) && s.delay == BackoffDelay(k)
    ensures BackoffKept(s, k, Next(s, LostReported(e, jitter)))
  {
    LostIsRetire(s, e, jitter);
    BackoffScheduled(Retire(s, e, s.endpoints[e].wired, Lost), jitter, k);
  }

  lemma BackoffTick(s: State, h: nat, jitter: real, k: nat)
    requires TimersInv(s) && Can(s, TimerFires(h, jitter)) && s.timers[h].callback == CheckAlive
    requires s.delay == BackoffDelay(k)
    ensures BackoffKept(s, if Alive(s) then k else 0, Next(s, TimerFires(h, jitter)))
  {
    assert BackoffDelay(0) == RECONNECT_MIN_DELAY;
    var fired := s.(timers := s.timers - {h});
    if !Alive(s) && s.protocol.Some? {
      var dropped := ProtocolStop(fired.(delay := RECONNECT_MIN_DELAY, protocol := None), s.protocol.value);
      BackoffScheduled(dropped, jitter, 0);
    }
  }

  lemma {:induction false} BackoffRun(s: State, evs: seq<Event>, k: nat)
    requires FullInv(s) && CanRun(s, evs) && s.delay == BackoffDelay(k)
    ensures Run(s, evs).delay == BackoffDelay(Backoffs(s, evs, k))
    decreases |evs|
  {
    if evs != [] {
      NextFull(s, evs[0]);
      BackoffStep(s, evs[0], k);
      BackoffRun(Next(s, evs[0]), evs[1..], BackoffsAfter(s, evs[0], k));
    }
  }

  /** The delay in closed form over any run, and the sleep of the next reconnect to be scheduled. */
  lemma BackoffClosedForm(init: State, evs: seq<Event>, ev: Event)
    requires Initial(init) && CanRun(init, evs) && Can(Run(init, evs), ev)
    ensures var s := Run(init, evs);
            var k := Backoffs(init, evs, 0);
            && s.delay == BackoffDelay(k)
            && (Schedules(s, ev) ==>
                  var d := BackoffDelay(if FindsDead(s, ev) then 0 else k);
                  var after := Next(s, ev);
                  Current(after).Sleeping? && d <= Current(after).wake - s.now <= d * 1.5 <= 90.0)
  {
    InitialFull(init);
    BackoffRun(init, evs, 0);
    RunFull(init, evs);
    BackoffStep(Run(init, evs), ev, Backoffs(init, evs, 0));
  }
}
