/** What every step keeps about time: the armed timers, the liveness clock and the log of keep-alives. */
module BpupClock {
  import opened Prelude
  import opened BpupModel
  import opened BpupInvariant

  function Interval(callback: Callback): real {
    if callback.CheckAlive? then ALIVE_TIMEOUT else KEEP_ALIVE_INTERVAL
  }

  predicate LastIs(s: State, link: Link) {
    s.endpoints != [] && s.endpoints[|s.endpoints| - 1].link == link
  }

  function DueAt(s: State, handle: Option<nat>): real {
    if handle.Some? && handle.value in s.timers then s.timers[handle.value].due else NEVER
  }

  /** When the newest endpoint's keep-alive timer is due. */
  function KeepAliveDue(s: State): real {
    if s.endpoints == [] then NEVER else DueAt(s, s.endpoints[|s.endpoints| - 1].keepAlive)
  }

  /** The newest endpoint still works, or its failure has not been reported to the client yet. */
  predicate LastUnreported(s: State) {
    LastIs(s, Open) || (LastIs(s, Closing) && s.endpoints[|s.endpoints| - 1].wired)
  }

  ghost predicate ClockInv(s: State) {
    && s.now >= 0.0
    && (s.lastMessage == NEVER || 0.0 <= s.lastMessage <= s.now)
    && (forall h | h in s.timers :: s.now <= s.timers[h].due <= s.now + Interval(s.timers[h].callback))
    && (!s.stopped && s.lastMessage != NEVER ==> LastUnreported(s))
    && (LastIs(s, Open) && Shaking(s) ==>
          KeepAliveDue(s) == s.now + KEEP_ALIVE_INTERVAL)
  }

  /** Endpoints take turns, and each sends every KEEP_ALIVE_INTERVAL seconds. */
  ghost predicate Cadence(log: seq<Packet>) {
    && (forall i, j | 0 <= i < j < |log| :: log[i].ep <= log[j].ep)
    && (forall i, j | 0 <= i < j < |log| && j == i + 1 && log[i].ep == log[j].ep ::
          log[j].at == log[i].at + KEEP_ALIVE_INTERVAL)
  }

  lemma CadenceExtends(log: seq<Packet>, p: Packet)
    requires Cadence(log)
    requires log != [] ==>
               var last := log[|log| - 1];
               last.ep < p.ep || (last.ep == p.ep && p.at == last.at + KEEP_ALIVE_INTERVAL)
    ensures Cadence(log + [p])
  {}

  ghost predicate LogInv(s: State) {
    && (forall i | 0 <= i < |s.sent| ::
          s.sent[i].at <= s.now && s.sent[i].ep < |s.endpoints| && s.endpoints[s.sent[i].ep].link != Built)
    && Cadence(s.sent)
    && (forall j | 0 <= j < |s.heard| :: s.heard[j].at <= s.now)
    && (LastIs(s, Open) ==>
          && s.sent != [] && s.sent[|s.sent| - 1].ep == |s.endpoints| - 1
          && KeepAliveDue(s) == s.sent[|s.sent| - 1].at + KEEP_ALIVE_INTERVAL)
  }

  ghost predicate FullInv(s: State) { Inv(s) && ClockInv(s) && LogInv(s) }

  lemma InitialFull(s: State)
    requires Initial(s)
    ensures FullInv(s)
  {}

  lemma NextFull(s: State, ev: Event)
    requires FullInv(s) && Can(s, ev)
    ensures FullInv(Next(s, ev))
  {
    NextInv(s, ev);
    NextTimely(s, ev);
  }

  /** Whether a step can send a keep-alive. */
  predicate Sends(s: State, ev: Event) {
    ev.EndpointMade? || (ev.TimerFires? && ev.handle in s.timers && s.timers[ev.handle].callback.KeepAlive?)
  }

  predicate Shaking(s: State) { Current(s).Handshake? || Start(s).Handshake? }

  /** What a callback that neither sends nor hears anything does to time, logs and links. */
  ghost predicate Calm(s: State, after: State) {
    && after.sent == s.sent && after.heard == s.heard && after.now == s.now && (s.stopped ==> after.stopped)
    && |after.endpoints| >= |s.endpoints|
    && (forall e | 0 <= e < |s.endpoints| && s.endpoints[e].link != Built :: after.endpoints[e].link != Built)
    && (forall h | h in after.timers ::
          || (h in s.timers && after.timers[h] == s.timers[h])
          || after.timers[h] == Timer(s.now + ALIVE_TIMEOUT, CheckAlive))
    && (LastIs(after, Open) ==>
          |after.endpoints| == |s.endpoints| && LastIs(s, Open) && KeepAliveDue(after) == KeepAliveDue(s)
          && (Shaking(after) ==> Shaking(s)))
    && (after.lastMessage == s.lastMessage || after.lastMessage == NEVER)
    && (!after.stopped && after.lastMessage != NEVER && LastUnreported(s) ==> LastUnreported(after))
  }

  lemma CalmTrans(s: State, mid: State, after: State)
    requires Calm(s, mid) && Calm(mid, after)
    ensures Calm(s, after)
  {}

  lemma CalmKeeps(s: State, after: State)
    requires Calm(s, after) && ClockInv(s)
    ensures ClockInv(after)
    ensures LogInv(s) ==> LogInv(after)
  {}

  /** Cancelling this endpoint's handle does not disarm the newest endpoint's timer. */
  predicate OwnHandle(s: State, e: nat) {
    && e < |s.endpoints|
    && (e != |s.endpoints| - 1 && s.endpoints[e].keepAlive.Some? && s.endpoints[e].keepAlive.value in s.timers ==>
          s.endpoints[|s.endpoints| - 1].keepAlive != s.endpoints[e].keepAlive)
  }

  lemma HandlesOwned(s: State, e: nat)
    requires TimersInv(s) && e < |s.endpoints|
    ensures OwnHandle(s, e)
  {}

  lemma DropKeepAliveCalm(s: State, e: nat)
    requires OwnHandle(s, e) && s.endpoints[e].link != Open
    ensures Calm(s, DropKeepAlive(s, e))
  {}

  lemma ProtocolStopCalm(s: State, e: nat)
    requires OwnHandle(s, e)
    ensures Calm(s, ProtocolStop(s, e))
  {}

  lemma ScheduleCalm(s: State, jitter: real)
    requires Current(s) == Done || Suppressed(s)
    ensures Calm(s, ScheduleReconnect(s, jitter))
  {}

  lemma HaltCalm(s: State)
    requires TimersInv(s)
    ensures Calm(s, Halt(s))
    ensures Halt(s).endpoints == s.endpoints && Halt(s).timers.Keys <= s.timers.Keys
  {}

  lemma StopCalm(s: State)
    requires TimersInv(s) && ProtocolKnown(s)
    ensures Calm(s, Stop(s))
  {
    HaltCalm(s);
    if s.protocol.Some? {
      var e := s.protocol.value;
      HandlesOwned(s, e);
      StopOwnedCalm(s, Halt(s), e);
    }
  }

  lemma StopOwnedCalm(s: State, halted: State, e: nat)
    requires OwnHandle(s, e) && halted.endpoints == s.endpoints && halted.timers.Keys <= s.timers.Keys
    requires Calm(s, halted)
    ensures Calm(s, ProtocolStop(halted, e).(protocol := None))
  {
    ProtocolStopCalm(halted, e);
    CalmTrans(s, halted, ProtocolStop(halted, e));
  }

  lemma DropCalm(s: State, jitter: real)
    requires TasksInv(s) && TimersInv(s) && ProtocolKnown(s) && !s.stopped
    ensures Calm(s, DropDeadProtocol(s, jitter))
  {
    if s.protocol.Some? {
      var unassigned := s.(delay := RECONNECT_MIN_DELAY, protocol := None);
      HandlesOwned(s, s.protocol.value);
      IdleOrSuppressed(s);
      UnassignCalm(s, unassigned);
      StopThenScheduleCalm(unassigned, s.protocol.value, jitter);
      CalmTrans(s, unassigned, ScheduleReconnect(ProtocolStop(unassigned, s.protocol.value), jitter));
    }
  }

  /** Forgetting the protocol leaves everything else as it was. */
  lemma UnassignCalm(s: State, unassigned: State)
    requires unassigned == s.(delay := RECONNECT_MIN_DELAY, protocol := None)
    ensures Calm(s, unassigned)
    ensures forall e: nat :: OwnHandle(s, e) ==> OwnHandle(unassigned, e)
    ensures Current(unassigned) == Current(s) && Suppressed(unassigned) == Suppressed(s)
  {}

  lemma IdleOrSuppressed(s: State)
    requires TasksInv(s) && !s.stopped
    ensures Current(s) == Done || Suppressed(s)
  {}

  lemma StopThenScheduleCalm(s: State, e: nat, jitter: real)
    requires OwnHandle(s, e) && (Current(s) == Done || Suppressed(s))
    ensures Calm(s, ScheduleReconnect(ProtocolStop(s, e), jitter))
  {
    var stopped := ProtocolStop(s, e);
    ProtocolStopCalm(s, e);
    ScheduleCalm(stopped, jitter);
    CalmTrans(s, stopped, ScheduleReconnect(stopped, jitter));
  }

  lemma RearmCalm(s: State, h: nat)
    requires TimersInv(s) && h in s.timers && s.timers[h].callback == CheckAlive
    ensures Calm(s, ScheduleWatchdog(s.(timers := s.timers - {h})))
  {}

  lemma CheckAliveCalm(s: State, h: nat, jitter: real)
    requires Inv(s) && Can(s, TimerFires(h, jitter)) && s.timers[h].callback == CheckAlive
    ensures Calm(s, Next(s, TimerFires(h, jitter)))
  {
    var checked := if Alive(s) then s else DropDeadProtocol(s, jitter);
    if !Alive(s) {
      DropInv(s, jitter);
      DropKeepsWatchdog(s, h, jitter);
      DropCalm(s, jitter);
    }
    RearmCalm(checked, h);
    CalmTrans(s, checked, ScheduleWatchdog(checked.(timers := checked.timers - {h})));
  }

  lemma LostCalm(s: State, e: nat, jitter: real)
    requires TasksInv(s) && TimersInv(s) && Can(s, LostReported(e, jitter))
    ensures Calm(s, Next(s, LostReported(e, jitter)))
  {
    var down := SetEndpoint(s, e, s.endpoints[e].(link := Lost));
    var lost := Retire(s, e, s.endpoints[e].wired, Lost);
    HandlesOwned(s, e);
    DropKeepAliveCalm(down.(lastMessage := NEVER), e);
    DownCalm(s, e);
    CalmTrans(s, down.(lastMessage := NEVER), lost);
    ScheduleCalm(lost, jitter);
    CalmTrans(s, lost, ScheduleReconnect(lost, jitter));
    LostIsRetire(s, e, jitter);
  }

  lemma DownCalm(s: State, e: nat)
    requires LinkIs(s, e, Closing)
    ensures Calm(s, SetEndpoint(s, e, s.endpoints[e].(link := Lost)).(lastMessage := NEVER))
  {}

  predicate IsCalm(s: State, ev: Event) { !Sends(s, ev) && !ev.Datagram? && !ev.TimePasses? }

  lemma NextCalm(s: State, ev: Event)
    requires Inv(s) && Can(s, ev) && IsCalm(s, ev)
    ensures Calm(s, Next(s, ev))
  {
    match ev
    case TimerFires(h, jitter) => CheckAliveCalm(s, h, jitter);
    case ConnectFails(who, jitter) => if who.Worker? { RetrySuppressed(s, who.task, jitter); }
    case LostReported(e, jitter) => LostCalm(s, e, jitter);
    case StopCalled => StopCalm(s);
    case _ => OtherCalm(s, ev);
  }

  lemma OtherCalm(s: State, ev: Event)
    requires Inv(s) && Can(s, ev)
    requires ev.EndpointBuilt? || ev.Assigned? || ev.SleepOver? || ev.CancelDelivered? || ev.TransportFails?
    ensures Calm(s, Next(s, ev))
  {
    match ev
    case EndpointBuilt(who) => BuildCalm(s, who);
    case Assigned(who) => AssignCalm(s, who);
    case CancelDelivered(t) => CancelCalm(s, t);
    case _ =>
  }

  lemma BuildCalm(s: State, who: Coroutine)
    requires At(s, who) == Connecting && StartupInv(s) && EndpointsInv(s) && TasksInv(s)
    ensures Calm(s, Build(s, who))
  {}

  lemma AssignCalm(s: State, who: Coroutine)
    requires At(s, who).Handshake? && StartupInv(s) && TasksInv(s) && TimersInv(s)
    ensures Calm(s, Assign(s, who))
  {}

  lemma CancelCalm(s: State, t: nat)
    requires Can(s, CancelDelivered(t)) && TasksInv(s) && EndpointsInv(s)
    ensures Calm(s, DeliverCancel(s, t))
  {}

  lemma NextTimely(s: State, ev: Event)
    requires FullInv(s) && Can(s, ev)
    ensures ClockInv(Next(s, ev)) && LogInv(Next(s, ev))
  {
    if IsCalm(s, ev) {
      NextCalm(s, ev);
      CalmKeeps(s, Next(s, ev));
    } else {
      LoudTimely(s, ev);
    }
  }

  /** The steps that send or hear something, or let time pass. */
  lemma LoudTimely(s: State, ev: Event)
    requires FullInv(s) && Can(s, ev) && !IsCalm(s, ev)
    ensures ClockInv(Next(s, ev)) && LogInv(Next(s, ev))
  {
    match ev
    case TimerFires(h, jitter) => SendTimely(s, h, jitter);
    case EndpointMade(e) => MadeTimely(s, e);
    case TimePasses(dt) => TimePassesTimely(s, dt);
    case Datagram(e, wellFormed) => DatagramTimely(s, e, wellFormed);
  }

  lemma SendTimely(s: State, h: nat, jitter: real)
    requires FullInv(s) && Can(s, TimerFires(h, jitter)) && s.timers[h].callback.KeepAlive?
    ensures ClockInv(Next(s, TimerFires(h, jitter))) && LogInv(Next(s, TimerFires(h, jitter)))
  {
    var e := s.timers[h].callback.ep;
    if s.endpoints[e].link == Open {
      assert e == |s.endpoints| - 1 && !Shaking(s) && KeepAliveDue(s) == s.timers[h].due == s.now;
    }
    SendLog(s, h, e);
    SendClock(s, h, e);
  }

  predicate SendIsDue(s: State, h: nat, e: nat) {
    && e < |s.endpoints| && h in s.timers && s.timers[h].callback == KeepAlive(e)
    && s.endpoints[e].keepAlive == Some(h)
    && (s.endpoints[e].link == Open ==> e == |s.endpoints| - 1 && !Shaking(s) && s.timers[h].due == s.now)
    && OwnHandle(s, e)
  }

  lemma SendClock(s: State, h: nat, e: nat)
    requires SendIsDue(s, h, e) && ClockInv(s)
    ensures ClockInv(SendKeepAlive(s.(timers := s.timers - {h}), e))
  {}

  lemma SendLog(s: State, h: nat, e: nat)
    requires SendIsDue(s, h, e) && LogInv(s)
    ensures LogInv(SendKeepAlive(s.(timers := s.timers - {h}), e))
  {
    var after := SendKeepAlive(s.(timers := s.timers - {h}), e);
    if s.endpoints[e].link == Open {
      assert KeepAliveDue(after) == s.now + KEEP_ALIVE_INTERVAL;
      SentExtends(s, after, e);
    }
  }

  lemma SentExtends(s: State, after: State, e: nat)
    requires LogInv(s) && e == |s.endpoints| - 1 && LastIs(s, Open)
    requires KeepAliveDue(s) == s.now && KeepAliveDue(after) == s.now + KEEP_ALIVE_INTERVAL
    requires after.now == s.now && after.heard == s.heard && after.sent == s.sent + [Packet(e, s.now)]
    requires |after.endpoints| == |s.endpoints|
    requires forall i | 0 <= i < |s.endpoints| :: after.endpoints[i].link == s.endpoints[i].link
    ensures LogInv(after)
  {
    CadenceExtends(s.sent, Packet(e, s.now));
  }

  lemma MadeTimely(s: State, e: nat)
    requires FullInv(s) && LinkIs(s, e, Built)
    ensures ClockInv(Next(s, EndpointMade(e))) && LogInv(Next(s, EndpointMade(e)))
  {
    MadeClock(s, e);
    MadeLog(s, e);
  }

  lemma MadeClock(s: State, e: nat)
    requires EndpointsInv(s) && ClockInv(s) && LinkIs(s, e, Built)
    ensures ClockInv(ConnectionMade(s, e))
  {}

  lemma MadeLog(s: State, e: nat)
    requires EndpointsInv(s) && LogInv(s) && LinkIs(s, e, Built)
    ensures LogInv(ConnectionMade(s, e))
  {
    CadenceExtends(s.sent, Packet(e, s.now));
  }

  lemma TimePassesTimely(s: State, dt: real)
    requires TasksInv(s) && ClockInv(s) && LogInv(s) && Can(s, TimePasses(dt))
    ensures ClockInv(Next(s, TimePasses(dt))) && LogInv(Next(s, TimePasses(dt)))
  {
    QuietNotShaking(s);
    LaterTimely(s, dt);
  }

  lemma DatagramTimely(s: State, e: nat, wellFormed: bool)
    requires ClockInv(s) && LogInv(s) && EndpointsInv(s) && LinkIs(s, e, Open)
    ensures ClockInv(Next(s, Datagram(e, wellFormed))) && LogInv(Next(s, Datagram(e, wellFormed)))
  {
    if wellFormed { HeardTimely(s, e); }
  }

  lemma QuietNotShaking(s: State)
    requires TasksInv(s) && Quiet(s)
    ensures !Shaking(s)
  {}

  lemma LaterTimely(s: State, dt: real)
    requires dt > 0.0 && NothingDueBefore(s, s.now + dt) && ClockInv(s) && (LastIs(s, Open) ==> !Shaking(s))
    ensures ClockInv(s.(now := s.now + dt)) && (LogInv(s) ==> LogInv(s.(now := s.now + dt)))
  {}

  lemma HeardTimely(s: State, e: nat)
    requires ClockInv(s) && LogInv(s) && EndpointsInv(s) && LinkIs(s, e, Open)
    ensures ClockInv(Notify(s, e)) && LogInv(Notify(s, e))
  {}

  lemma {:induction false} RunFull(s: State, evs: seq<Event>)
    requires FullInv(s) && CanRun(s, evs)
    ensures FullInv(Run(s, evs))
    decreases |evs|
  {
    if evs != [] {
      NextFull(s, evs[0]);
      RunFull(Next(s, evs[0]), evs[1..]);
    }
  }

  lemma ReachableFull(s: State)
    requires Reachable(s)
    ensures FullInv(s)
  {
    var init, evs :| Initial(init) && CanRun(init, evs) && Run(init, evs) == s;
    InitialFull(init);
    RunFull(init, evs);
  }
}
