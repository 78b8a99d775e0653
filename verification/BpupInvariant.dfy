/** What every step of the push client keeps. */
module BpupInvariant {
  import opened Prelude
  import opened BpupModel

  // ----- the invariant, part by part

  /** The endpoint can neither receive nor call the client back. */
  predicate Retired(ep: Endpoint) { ep.link == Lost || (ep.link == Closing && !ep.wired) }

  /** The await of the newest task; only the newest can be unfinished. */
  function Current(s: State): Await {
    if s.tasks == [] then Done else s.tasks[|s.tasks| - 1].at
  }

  /** The starter's await. */
  function Start(s: State): Await { At(s, Starter) }

  ghost predicate TasksInv(s: State) {
    && RECONNECT_MIN_DELAY <= s.delay <= RECONNECT_MAX_DELAY
    && (forall t | 0 <= t < |s.tasks| - 1 :: s.tasks[t].at == Done)
    && (!s.stopped ==> forall t | 0 <= t < |s.tasks| :: !s.tasks[t].cancelled)
    && (!s.stopped ==> s.reconnect == if s.tasks == [] then None else Some(|s.tasks| - 1))
    && (s.stopped ==> s.reconnect == None && (Current(s) != Done ==> s.tasks[|s.tasks| - 1].cancelled))
  }

  ghost predicate StartupInv(s: State) {
    && (!s.startup.Running? ==> !s.stopped && s.protocol == None && s.watchdog == None)
    && (Start(s) == Connecting || s.startup.Failed? ==> s.endpoints == [] && s.tasks == [])
    && (s.startup.Starting? ==> s.startup.at.Connecting? || s.startup.at == Handshake(0))
    && (Start(s).Handshake? ==>
          |s.endpoints| == 1 && (Current(s) == Done || (Current(s).Sleeping? && Current(s).wake > s.now)))
  }

  ghost predicate EndpointsInv(s: State) {
    var last := |s.endpoints| - 1;
    && (forall e | 0 <= e < last :: s.endpoints[e].link == Lost || s.endpoints[e].link == Closing)
    && (!s.stopped ==> forall e | 0 <= e < last :: Retired(s.endpoints[e]))
    && (Current(s).Handshake? ==> Current(s).ep == last)
    && (forall e | 0 <= e <= last && s.endpoints[e].link == Built :: s.endpoints[e].keepAlive == None)
    && (last >= 0 && s.endpoints[last].link == Built ==> Current(s).Handshake? || Start(s).Handshake?)
    && (last >= 0 && s.endpoints[last].link == Open ==>
          Current(s).Handshake? || Start(s).Handshake? || s.protocol == Some(last))
    && (!s.stopped && last >= 0 && !Retired(s.endpoints[last]) ==>
          Current(s).Handshake? || Start(s).Handshake? || s.protocol == Some(last))
    && (!s.stopped && (Current(s).Sleeping? || Current(s) == Connecting) ==>
          forall e | 0 <= e <= last :: Retired(s.endpoints[e]))
  }

  ghost predicate ProtocolInv(s: State) {
    var last := |s.endpoints| - 1;
    && (s.stopped ==> s.protocol == None)
    && (s.protocol.Some? ==>
          var e := s.protocol.value;
          && e <= last && s.endpoints[e].wired && s.endpoints[e].link != Built
          && (e == last || s.endpoints[e].link == Lost)
          && (Current(s) != Done ==> s.endpoints[e].link == Lost)
          && (Current(s).Handshake? ==> e != last))
    && (!s.stopped && (Current(s).Handshake? || Start(s).Handshake?) && last >= 0 ==> s.endpoints[last].wired)
  }

  ghost predicate TimersInv(s: State) {
    && (forall h | h in s.timers ::
          && h < s.handles
          && match s.timers[h].callback
             case KeepAlive(e) =>
               e < |s.endpoints| && s.endpoints[e].keepAlive == Some(h)
             case CheckAlive => s.watchdog == Some(h))
    && (forall e | 0 <= e < |s.endpoints| && s.endpoints[e].keepAlive.Some? ::
          var h := s.endpoints[e].keepAlive.value;
          h < s.handles && (h in s.timers ==> s.timers[h].callback == KeepAlive(e)))
    && (s.watchdog.Some? ==>
          !s.stopped && s.watchdog.value in s.timers && s.timers[s.watchdog.value].callback == CheckAlive)
    && (s.startup.Running? && !s.stopped ==> s.watchdog.Some?)
    && (forall e | 0 <= e < |s.endpoints| && s.endpoints[e].link == Open ::
          s.endpoints[e].keepAlive.Some? && s.endpoints[e].keepAlive.value in s.timers)
  }

  ghost predicate InvBesidesTimers(s: State) {
    TasksInv(s) && StartupInv(s) && EndpointsInv(s) && ProtocolInv(s)
  }

  ghost predicate Inv(s: State) { InvBesidesTimers(s) && TimersInv(s) }

  lemma NextInv(s: State, ev: Event)
    requires Inv(s) && Can(s, ev)
    ensures Inv(Next(s, ev))
  {
    match ev
    case LostReported(e, jitter) => LostInv(s, e, jitter);
    case TimerFires(h, jitter) => FiresInv(s, h, jitter);
    case SleepOver(t) => SleepInv(s, t);
    case TransportFails(e) => FailsInv(s, e);
    case Datagram(e, wellFormed) => DatagramInv(s, e, wellFormed);
    case TimePasses(dt) => LaterInv(s, dt);
    case _ => ConnectionInv(s, ev);
  }

  /** The steps of a connect, and those that end one. */
  lemma ConnectionInv(s: State, ev: Event)
    requires Inv(s) && Can(s, ev)
    requires ev.ConnectFails? || ev.EndpointBuilt? || ev.EndpointMade? || ev.Assigned? || ev.CancelDelivered?
             || ev.StopCalled?
    ensures Inv(Next(s, ev))
  {
    match ev
    case ConnectFails(who, jitter) => ConnectFailsInv(s, who, jitter);
    case EndpointBuilt(who) => BuiltInv(s, who);
    case EndpointMade(e) => MadeInv(s, e);
    case Assigned(who) => AssignInv(s, who);
    case CancelDelivered(t) => CancelInv(s, t);
    case StopCalled => StopInv(s);
  }

  /** The retry of a failed reconnect is evaluated inside the task its guard inspects: it does nothing. */
  lemma RetrySuppressed(s: State, t: nat, jitter: real)
    requires Inv(s) && At(s, Worker(t)) == Connecting
    ensures ScheduleReconnect(s, jitter) == s
    ensures ConnectRaises(s, Worker(t), jitter) == s.(tasks := s.tasks[t := Task(Done, false)])
  {}

  lemma ConnectFailsInv(s: State, who: Coroutine, jitter: real)
    requires Inv(s) && Can(s, ConnectFails(who, jitter))
    ensures Inv(Next(s, ConnectFails(who, jitter)))
  {
    if who.Worker? {
      RetrySuppressed(s, who.task, jitter);
      FinishRest(s, who.task);
    }
  }

  lemma FinishRest(s: State, t: nat)
    requires InvBesidesTimers(s) && At(s, Worker(t)) == Connecting
    ensures InvBesidesTimers(s.(tasks := s.tasks[t := Task(Done, false)]))
  {}

  lemma BuiltInv(s: State, who: Coroutine)
    requires Inv(s) && Can(s, EndpointBuilt(who))
    ensures Inv(Next(s, EndpointBuilt(who)))
  {
    BuiltRest(s, who);
  }

  lemma BuiltRest(s: State, who: Coroutine)
    requires InvBesidesTimers(s) && At(s, who) == Connecting
    ensures InvBesidesTimers(Build(s, who))
  {}

  lemma MadeInv(s: State, e: nat)
    requires Inv(s) && Can(s, EndpointMade(e))
    ensures Inv(Next(s, EndpointMade(e)))
  {
    MadeTimers(s, e);
    MadeRest(s, e);
  }

  lemma MadeTimers(s: State, e: nat)
    requires TimersInv(s) && LinkIs(s, e, Built) && s.endpoints[e].keepAlive == None
    ensures TimersInv(ConnectionMade(s, e))
  {}

  lemma MadeRest(s: State, e: nat)
    requires InvBesidesTimers(s) && LinkIs(s, e, Built)
    ensures InvBesidesTimers(ConnectionMade(s, e))
  {}

  lemma AssignInv(s: State, who: Coroutine)
    requires Inv(s) && Can(s, Assigned(who))
    ensures Inv(Next(s, Assigned(who)))
  {
    AssignTimers(s, who);
    AssignRest(s, who);
  }

  lemma AssignTimers(s: State, who: Coroutine)
    requires TimersInv(s) && StartupInv(s) && Can(s, Assigned(who))
    ensures TimersInv(Assign(s, who))
  {}

  lemma AssignRest(s: State, who: Coroutine)
    requires InvBesidesTimers(s) && Can(s, Assigned(who))
    ensures InvBesidesTimers(Assign(s, who))
  {}

  lemma SleepInv(s: State, t: nat)
    requires Inv(s) && Can(s, SleepOver(t))
    ensures Inv(Next(s, SleepOver(t)))
  {}

  lemma FailsInv(s: State, e: nat)
    requires Inv(s) && Can(s, TransportFails(e))
    ensures Inv(Next(s, TransportFails(e)))
  {
    FailsRest(s, e);
  }

  lemma FailsRest(s: State, e: nat)
    requires InvBesidesTimers(s) && LinkIs(s, e, Open)
    ensures InvBesidesTimers(Next(s, TransportFails(e)))
  {}

  lemma DatagramInv(s: State, e: nat, wellFormed: bool)
    requires Inv(s) && Can(s, Datagram(e, wellFormed))
    ensures Inv(Next(s, Datagram(e, wellFormed)))
  {}

  lemma LaterInv(s: State, dt: real)
    requires Inv(s) && Can(s, TimePasses(dt))
    ensures Inv(Next(s, TimePasses(dt)))
  {
    LaterRest(s, dt);
  }

  lemma LaterRest(s: State, dt: real)
    requires InvBesidesTimers(s) && dt > 0.0 && !Start(s).Handshake?
    ensures InvBesidesTimers(s.(now := s.now + dt))
  {}

  lemma CancelInv(s: State, t: nat)
    requires Inv(s) && Can(s, CancelDelivered(t))
    ensures Inv(Next(s, CancelDelivered(t)))
  {}

  // ----- the pieces the longer callbacks are made of

  lemma DropKeepAliveInv(s: State, e: nat)
    requires TimersInv(s) && e < |s.endpoints| && s.endpoints[e].link != Open
    ensures TimersInv(DropKeepAlive(s, e))
  {}

  lemma ScheduleTimers(s: State, jitter: real)
    requires TimersInv(s)
    ensures TimersInv(ScheduleReconnect(s, jitter))
  {}

  ghost predicate AllRetired(s: State) {
    && (forall e | 0 <= e < |s.endpoints| :: Retired(s.endpoints[e]))
    && (s.protocol.Some? ==> ProtocolKnown(s) && s.endpoints[s.protocol.value].link == Lost)
  }

  lemma ScheduleRest(s: State, jitter: real)
    requires InvBesidesTimers(s) && 0.0 <= jitter
    requires s.startup.Running? || Start(s).Handshake?
    requires Current(s) == Done ==> AllRetired(s)
    ensures InvBesidesTimers(ScheduleReconnect(s, jitter))
  {}

  function Retire(s: State, e: nat, wired: bool, link: Link): State
    requires e < |s.endpoints|
  {
    DropKeepAlive(SetEndpoint(s, e, s.endpoints[e].(wired := wired, link := link)), e).(lastMessage := NEVER)
  }

  lemma LostInv(s: State, e: nat, jitter: real)
    requires Inv(s) && Can(s, LostReported(e, jitter))
    ensures Inv(Next(s, LostReported(e, jitter)))
  {
    var ep := s.endpoints[e];
    var lost := Retire(s, e, ep.wired, Lost);
    LostRest(s, e);
    DropKeepAliveInv(SetEndpoint(s, e, ep.(link := Lost)), e);
    if ep.wired && !s.stopped {
      WiredLost(s, e);
      ScheduleRest(lost, jitter);
      ScheduleTimers(lost, jitter);
    }
    LostIsRetire(s, e, jitter);
  }

  lemma LostIsRetire(s: State, e: nat, jitter: real)
    requires Can(s, LostReported(e, jitter))
    ensures var lost := Retire(s, e, s.endpoints[e].wired, Lost);
            Next(s, LostReported(e, jitter)) ==
              if s.endpoints[e].wired && !s.stopped then ScheduleReconnect(lost, jitter) else lost
  {}

  lemma LostRest(s: State, e: nat)
    requires InvBesidesTimers(s) && LinkIs(s, e, Closing)
    ensures InvBesidesTimers(Retire(s, e, s.endpoints[e].wired, Lost))
  {
    var lost := Retire(s, e, s.endpoints[e].wired, Lost);
    assert lost.endpoints == s.endpoints[e := Endpoint(Lost, s.endpoints[e].wired, None)];
    assert Current(lost) == Current(s) && Start(lost) == Start(s);
    assert TasksInv(lost) && StartupInv(lost);
    assert EndpointsInv(lost);
  }

  lemma WiredLost(s: State, e: nat)
    requires InvBesidesTimers(s) && LinkIs(s, e, Closing) && s.endpoints[e].wired && !s.stopped
    ensures var lost := Retire(s, e, true, Lost);
            && (lost.startup.Running? || Start(lost).Handshake?)
            && (Current(lost) == Done ==> AllRetired(lost))
  {}

  lemma FiresInv(s: State, h: nat, jitter: real)
    requires Inv(s) && Can(s, TimerFires(h, jitter))
    ensures Inv(Next(s, TimerFires(h, jitter)))
  {
    match s.timers[h].callback
    case KeepAlive(e) => KeepAliveInv(s, h, e);
    case CheckAlive =>
      var checked := if Alive(s) then s else DropDeadProtocol(s, jitter);
      if !Alive(s) {
        DropInv(s, jitter);
        DropKeepsWatchdog(s, h, jitter);
      }
      RearmInv(checked, h);
  }

  /** Dropping the protocol leaves the watchdog's timer alone, so it may be taken off before or after. */
  lemma DropKeepsWatchdog(s: State, h: nat, jitter: real)
    requires TimersInv(s) && ProtocolKnown(s) && h in s.timers && s.timers[h].callback == CheckAlive
    ensures
      var after := DropDeadProtocol(s, jitter);
      && h in after.timers && after.timers[h] == s.timers[h]
      && DropDeadProtocol(s.(timers := s.timers - {h}), jitter) == after.(timers := after.timers - {h})
  {
    if s.protocol.Some? {
      var handle := s.endpoints[s.protocol.value].keepAlive;
      if handle.Some? {
        assert s.timers - {h} - {handle.value} == s.timers - {handle.value} - {h};
      }
    }
  }

  lemma KeepAliveInv(s: State, h: nat, e: nat)
    requires Inv(s) && h in s.timers && s.timers[h].callback == KeepAlive(e)
    ensures e < |s.endpoints| && Inv(SendKeepAlive(s.(timers := s.timers - {h}), e))
  {
    KeepAliveTimers(s, h, e);
    FiredRest(s, h);
    KeepAliveRest(s.(timers := s.timers - {h}), e);
  }

  lemma FiredRest(s: State, h: nat)
    requires InvBesidesTimers(s)
    ensures InvBesidesTimers(s.(timers := s.timers - {h}))
  {}

  lemma KeepAliveRest(s: State, e: nat)
    requires InvBesidesTimers(s) && e < |s.endpoints|
    ensures InvBesidesTimers(SendKeepAlive(s, e))
  {}

  lemma KeepAliveTimers(s: State, h: nat, e: nat)
    requires TimersInv(s) && h in s.timers && s.timers[h].callback == KeepAlive(e)
    ensures e < |s.endpoints| && TimersInv(SendKeepAlive(s.(timers := s.timers - {h}), e))
  {
    if s.endpoints[e].link == Open { Resent(s, h, e); } else { FiredIdly(s, h, e); }
  }

  lemma FiredIdly(s: State, h: nat, e: nat)
    requires TimersInv(s) && h in s.timers && s.timers[h].callback == KeepAlive(e)
    requires e < |s.endpoints| && s.endpoints[e].link != Open
    ensures TimersInv(s.(timers := s.timers - {h}))
  {}

  lemma Resent(s: State, h: nat, e: nat)
    requires TimersInv(s) && h in s.timers && s.timers[h].callback == KeepAlive(e)
    requires e < |s.endpoints| && s.endpoints[e].link == Open
    ensures TimersInv(SendKeepAlive(s.(timers := s.timers - {h}), e))
  {}

  /** Taking the fired watchdog off the loop and arming the next one. */
  lemma RearmInv(s: State, h: nat)
    requires Inv(s) && h in s.timers && s.timers[h].callback == CheckAlive
    ensures Inv(ScheduleWatchdog(s.(timers := s.timers - {h})))
  {}

  lemma DropInv(s: State, jitter: real)
    requires Inv(s) && s.startup.Running? && !s.stopped
    requires JitterFits(RECONNECT_MIN_DELAY, jitter)
    ensures Inv(DropDeadProtocol(s, jitter))
  {
    DropTimers(s, jitter);
    DropRest(s, jitter);
  }

  lemma DropTimers(s: State, jitter: real)
    requires TimersInv(s) && ProtocolKnown(s)
    ensures TimersInv(DropDeadProtocol(s, jitter))
  {
    if s.protocol.Some? {
      var dropped := s.(protocol := None, delay := RECONNECT_MIN_DELAY);
      ProtocolStopTimers(dropped, s.protocol.value);
      ScheduleTimers(ProtocolStop(dropped, s.protocol.value), jitter);
    }
  }

  lemma DropRest(s: State, jitter: real)
    requires Inv(s) && s.startup.Running? && !s.stopped
    requires JitterFits(RECONNECT_MIN_DELAY, jitter)
    ensures InvBesidesTimers(DropDeadProtocol(s, jitter))
  {
    if s.protocol.Some? {
      var dropped := s.(protocol := None, delay := RECONNECT_MIN_DELAY);
      UnassignRest(s);
      ScheduleRest(ProtocolStop(dropped, s.protocol.value), jitter);
    }
  }

  lemma UnassignRest(s: State)
    requires InvBesidesTimers(s) && s.protocol.Some? && !s.stopped
    ensures ProtocolKnown(s)
    ensures var after := ProtocolStop(s.(protocol := None, delay := RECONNECT_MIN_DELAY), s.protocol.value);
            InvBesidesTimers(after) && (Current(after) == Done ==> AllRetired(after))
  {}

  lemma ProtocolStopTimers(s: State, e: nat)
    requires TimersInv(s) && e < |s.endpoints|
    ensures TimersInv(ProtocolStop(s, e))
  {}

  lemma StopInv(s: State)
    requires Inv(s) && Can(s, StopCalled)
    ensures Inv(Next(s, StopCalled))
  {
    HaltTimers(s);
    if s.protocol.Some? {
      ProtocolStopTimers(Halt(s), s.protocol.value);
    }
    StopRest(s);
  }

  lemma StopRest(s: State)
    requires InvBesidesTimers(s) && s.startup.Running? && ProtocolKnown(s)
    ensures InvBesidesTimers(Stop(s))
  {
    HaltShape(s);
    StoppedRest(s, Stop(s));
  }

  lemma HaltShape(s: State)
    requires TasksInv(s)
    ensures var after := Halt(s);
            && after.stopped && after.watchdog == None && after.reconnect == None && after.protocol == s.protocol
            && after.startup == s.startup && after.delay == s.delay && after.endpoints == s.endpoints
            && |after.tasks| == |s.tasks| && (forall t | 0 <= t < |s.tasks| :: after.tasks[t].at == s.tasks[t].at)
            && (Current(after) != Done ==> after.tasks[|after.tasks| - 1].cancelled)
  {}

  lemma StoppedRest(s: State, after: State)
    requires InvBesidesTimers(s) && s.startup.Running? && ProtocolKnown(s)
    requires after.stopped && after.protocol == None && after.watchdog == None && after.reconnect == None
    requires after.startup == s.startup && after.delay == s.delay
    requires after.endpoints ==
               if s.protocol == None then s.endpoints
               else s.endpoints[s.protocol.value := Endpoint(Close(s.endpoints[s.protocol.value].link), false, None)]
    requires |after.tasks| == |s.tasks| && forall t | 0 <= t < |s.tasks| :: after.tasks[t].at == s.tasks[t].at
    requires Current(after) != Done ==> after.tasks[|after.tasks| - 1].cancelled
    ensures InvBesidesTimers(after)
  {}

  lemma HaltTimers(s: State)
    requires TimersInv(s)
    ensures TimersInv(Halt(s))
  {}
}
