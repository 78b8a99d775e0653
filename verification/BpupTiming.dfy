/** Timed bounds on the push client: when the watchdog closes an endpoint. */
module BpupTiming {
  import opened Prelude
  import opened BpupModel
  import opened BpupInvariant
  import opened BpupClock
  import opened BpupSafety
  import opened BpupRecovery

  lemma NewestOpen(s: State, e: nat)
    requires EndpointsInv(s) && LinkIs(s, e, Open)
    ensures e == |s.endpoints| - 1 && LastIs(s, Open)
  {}

  /** A transport that is not open never opens again. */
  lemma OpenBefore(s: State, ev: Event, e: nat)
    requires Inv(s) && Can(s, ev) && e < |s.endpoints| && s.endpoints[e].link != Built
    requires EndpointsInv(Next(s, ev)) && LinkIs(Next(s, ev), e, Open)
    ensures LinkIs(s, e, Open)
  {
    if IsCalm(s, ev) {
      NextCalm(s, ev);
      OpenBeforeCalm(s, Next(s, ev), e);
    } else {
      OpenBeforeSending(s, ev, e);
    }
  }

  lemma OpenBeforeCalm(s: State, after: State, e: nat)
    requires Calm(s, after) && EndpointsInv(after) && LinkIs(after, e, Open) && e < |s.endpoints|
    ensures LinkIs(s, e, Open)
  {
    NewestOpen(after, e);
  }

  lemma OpenBeforeSending(s: State, ev: Event, e: nat)
    requires Can(s, ev) && !IsCalm(s, ev) && e < |s.endpoints| && s.endpoints[e].link != Built
    requires LinkIs(Next(s, ev), e, Open)
    ensures LinkIs(s, e, Open)
  {}

  lemma LinksAdvance(s: State, ev: Event, e: nat)
    requires Inv(s) && Can(s, ev) && e < |s.endpoints| && s.endpoints[e].link != Built
    ensures e < |Next(s, ev).endpoints| && Next(s, ev).endpoints[e].link != Built
  {
    if IsCalm(s, ev) { NextCalm(s, ev); }
  }

  lemma {:induction false} OpenThroughout(s: State, evs: seq<Event>, e: nat)
    requires FullInv(s) && CanRun(s, evs) && e < |s.endpoints| && s.endpoints[e].link != Built
    requires LinkIs(Run(s, evs), e, Open)
    ensures LinkIs(s, e, Open)
    decreases |evs|
  {
    if evs != [] {
      LinksAdvance(s, evs[0], e);
      NextFull(s, evs[0]);
      OpenThroughout(Next(s, evs[0]), evs[1..], e);
      OpenBefore(s, evs[0], e);
    }
  }

  lemma TimeAdvances(s: State, ev: Event)
    requires Inv(s) && Can(s, ev)
    ensures Next(s, ev).now >= s.now
  {
    if IsCalm(s, ev) { NextCalm(s, ev); }
  }

  lemma {:induction false} RunAdvances(s: State, evs: seq<Event>)
    requires FullInv(s) && CanRun(s, evs)
    ensures Run(s, evs).now >= s.now
    decreases |evs|
  {
    if evs != [] {
      TimeAdvances(s, evs[0]);
      NextFull(s, evs[0]);
      RunAdvances(Next(s, evs[0]), evs[1..]);
    }
  }

  /** The run leaves the client unstopped and the endpoint open. */
  ghost predicate StaysOpen(s: State, evs: seq<Event>, e: nat) {
    && FullInv(s) && CanRun(s, evs) && LinkIs(s, e, Open)
    && LinkIs(Run(s, evs), e, Open) && !Run(s, evs).stopped
  }

  lemma StaysOpenStep(s: State, evs: seq<Event>, e: nat)
    requires StaysOpen(s, evs, e) && evs != []
    ensures var next := Next(s, evs[0]);
            StaysOpen(next, evs[1..], e) && !next.stopped && next.now <= Run(s, evs).now
    ensures s.now <= Run(s, evs).now && !s.stopped && evs[0] != StopCalled
  {
    var next := Next(s, evs[0]);
    StrandedRun(s, evs);
    if evs[0] == StopCalled { StopIsNext(s); }
    NextFull(s, evs[0]);
    LinksAdvance(s, evs[0], e);
    OpenThroughout(next, evs[1..], e);
    StrandedRun(next, evs[1..]);
    RunAdvances(next, evs[1..]);
    TimeAdvances(s, evs[0]);
  }

  // ----- the watchdog's window

  /** Whether a lost report has wiped the clock since the last message. */
  predicate WipedBy(ev: Event, before: bool) {
    ev.LostReported? || (before && !(ev.Datagram? && ev.wellFormed))
  }

  predicate Wiped(evs: seq<Event>, before: bool) {
    if evs == [] then before else Wiped(evs[1..], WipedBy(evs[0], before))
  }

  /** The clock of an open endpoint heard at time t, before t + 70. */
  predicate Fresh(s: State, t: real, wiped: bool) {
    s.now >= t && (if wiped then s.lastMessage == NEVER else s.lastMessage >= t)
  }

  lemma FreshStep(s: State, ev: Event, t: real, wiped: bool)
    requires Can(s, ev) && t >= 0.0 && Fresh(s, t, wiped) && !Next(s, ev).stopped
    requires s.now < t + 70.0
    ensures Fresh(Next(s, ev), t, WipedBy(ev, wiped))
  {
    match ev
    case LostReported(l, jitter) => LostIsRetire(s, l, jitter);
    case TimerFires(h, jitter) => FreshTimer(s, h, jitter, t, wiped);
    case _ => FreshOther(s, ev, t, wiped);
  }

  lemma FreshOther(s: State, ev: Event, t: real, wiped: bool)
    requires Can(s, ev) && t >= 0.0 && Fresh(s, t, wiped)
    requires !ev.TimerFires? && !ev.LostReported? && !ev.StopCalled?
    ensures Fresh(Next(s, ev), t, WipedBy(ev, wiped))
  {}

  lemma FreshTimer(s: State, h: nat, jitter: real, t: real, wiped: bool)
    requires Can(s, TimerFires(h, jitter)) && Fresh(s, t, wiped) && s.now < t + 70.0
    ensures Fresh(Next(s, TimerFires(h, jitter)), t, wiped)
  {}

  lemma {:induction false} FreshRun(s: State, evs: seq<Event>, e: nat, t: real, wiped: bool)
    requires StaysOpen(s, evs, e) && t >= 0.0 && Fresh(s, t, wiped) && Run(s, evs).now < t + 70.0
    ensures Fresh(Run(s, evs), t, Wiped(evs, wiped))
    decreases |evs|
  {
    if evs != [] {
      StaysOpenStep(s, evs, e);
      FreshStep(s, evs[0], t, wiped);
      FreshRun(Next(s, evs[0]), evs[1..], e, t, WipedBy(evs[0], wiped));
    }
  }

  /**
    An endpoint heard at time t and still open: a watchdog tick before t + 70 closes it exactly when
    a late report of another endpoint's loss has wiped the shared clock since it was last heard.
   */
  lemma ClosedEarlyIffWiped(s: State, evs: seq<Event>, e: nat, h: nat, jitter: real)
    requires Reachable(s) && LinkIs(s, e, Open) && s.lastMessage == s.now && CanRun(s, evs)
    requires var at := Run(s, evs);
             && Live(at) && at.protocol == Some(e) && LinkIs(at, e, Open) && at.now < s.now + 70.0
             && at.watchdog == Some(h) && Can(at, TimerFires(h, jitter))
    ensures LinkIs(Next(Run(s, evs), TimerFires(h, jitter)), e, Closing) <==> Wiped(evs, false)
  {
    ReachableFull(s);
    RunFull(s, evs);
    FreshRun(s, evs, e, s.now, false);
    TickCloses(Run(s, evs), e, h, jitter);
  }

  lemma TickCloses(s: State, e: nat, h: nat, jitter: real)
    requires Inv(s) && Live(s) && s.protocol == Some(e) && LinkIs(s, e, Open)
    requires s.watchdog == Some(h) && Can(s, TimerFires(h, jitter))
    ensures LinkIs(Next(s, TimerFires(h, jitter)), e, Closing) <==> !Alive(s)
  {}

  /** No other endpoint has a loss left to report. */
  predicate Alone(s: State, e: nat) {
    forall l | 0 <= l < |s.endpoints| && l != e :: s.endpoints[l].link == Lost
  }

  lemma LostStays(s: State, ev: Event, l: nat)
    requires Can(s, ev) && LinkIs(s, l, Lost)
    ensures LinkIs(Next(s, ev), l, Lost)
  {
    match ev
    case LostReported(e, jitter) => LostIsRetire(s, e, jitter);
    case TimerFires(h, jitter) => LostStaysTimer(s, h, jitter, l);
    case StopCalled => LostStaysStop(s, l);
    case ConnectFails(who, jitter) =>
    case _ => LostStaysOther(s, ev, l);
  }

  lemma LostStaysTimer(s: State, h: nat, jitter: real, l: nat)
    requires Can(s, TimerFires(h, jitter)) && LinkIs(s, l, Lost)
    ensures LinkIs(Next(s, TimerFires(h, jitter)), l, Lost)
  {}

  lemma LostStaysStop(s: State, l: nat)
    requires ProtocolKnown(s) && LinkIs(s, l, Lost)
    ensures LinkIs(Stop(s), l, Lost)
  {}

  lemma LostStaysOther(s: State, ev: Event, l: nat)
    requires Can(s, ev) && LinkIs(s, l, Lost)
    requires !ev.ConnectFails? && !ev.LostReported? && !ev.TimerFires? && !ev.StopCalled?
    ensures LinkIs(Next(s, ev), l, Lost)
  {}

  lemma AloneStep(s: State, ev: Event, e: nat)
    requires EndpointsInv(s) && Can(s, ev) && Alone(s, e) && LinkIs(s, e, Open)
    requires EndpointsInv(Next(s, ev)) && LinkIs(Next(s, ev), e, Open)
    ensures !ev.LostReported? && Alone(Next(s, ev), e)
  {
    AllLostStay(s, ev, e);
    StillAlone(s, Next(s, ev), e);
  }

  lemma StillAlone(s: State, after: State, e: nat)
    requires EndpointsInv(s) && LinkIs(s, e, Open) && EndpointsInv(after) && LinkIs(after, e, Open)
    requires forall l | 0 <= l < |s.endpoints| && l != e :: LinkIs(after, l, Lost)
    ensures Alone(after, e)
  {
    NewestOpen(s, e);
    NewestOpen(after, e);
    forall l | 0 <= l < |after.endpoints| && l != e
      ensures after.endpoints[l].link == Lost
    {
      assert LinkIs(after, l, Lost);
    }
  }

  lemma AllLostStay(s: State, ev: Event, e: nat)
    requires Can(s, ev) && Alone(s, e)
    ensures forall l | 0 <= l < |s.endpoints| && l != e :: LinkIs(Next(s, ev), l, Lost)
  {
    forall l | 0 <= l < |s.endpoints| && l != e
      ensures LinkIs(Next(s, ev), l, Lost)
    {
      LostStays(s, ev, l);
    }
  }

  lemma {:induction false} AloneNotWiped(s: State, evs: seq<Event>, e: nat)
    requires StaysOpen(s, evs, e) && Alone(s, e)
    ensures !Wiped(evs, false)
    decreases |evs|
  {
    if evs != [] {
      StaysOpenStep(s, evs, e);
      AloneStep(s, evs[0], e);
      AloneNotWiped(Next(s, evs[0]), evs[1..], e);
    }
  }

  /** Once every earlier endpoint has reported its loss, no tick before t + 70 closes the one heard at t. */
  lemma NeverClosedEarly(s: State, evs: seq<Event>, e: nat, h: nat, jitter: real)
    requires Reachable(s) && LinkIs(s, e, Open) && s.lastMessage == s.now && Alone(s, e) && CanRun(s, evs)
    requires var at := Run(s, evs);
             && Live(at) && at.protocol == Some(e) && LinkIs(at, e, Open) && at.now < s.now + 70.0
             && at.watchdog == Some(h) && Can(at, TimerFires(h, jitter))
    ensures LinkIs(Next(Run(s, evs), TimerFires(h, jitter)), e, Open)
  {
    ReachableFull(s);
    AloneNotWiped(s, evs, e);
    ClosedEarlyIffWiped(s, evs, e, h, jitter);
    RunFull(s, evs);
    TickSpares(Run(s, evs), e, h, jitter);
  }

  lemma TickSpares(s: State, e: nat, h: nat, jitter: real)
    requires Inv(s) && Live(s) && s.protocol == Some(e) && LinkIs(s, e, Open)
    requires s.watchdog == Some(h) && Can(s, TimerFires(h, jitter))
    ensures var after := Next(s, TimerFires(h, jitter)); LinkIs(after, e, Open) || LinkIs(after, e, Closing)
  {}

  /** What bounds the watchdog while an endpoint heard at time t says nothing more. */
  predicate Doomed(s: State, t: real) {
    && s.lastMessage <= t
    && (s.startup.Running? ==> s.watchdog.Some? && DueAt(s, s.watchdog) < t + 140.0)
    && (Shaking(s) ==> s.now == t)
  }

  lemma DoomedStep(s: State, ev: Event, e: nat, t: real)
    requires Inv(s) && ClockInv(s) && Can(s, ev) && t >= 0.0 && Doomed(s, t) && !s.stopped && ev != StopCalled
    requires LinkIs(s, e, Open) && LinkIs(Next(s, ev), e, Open) && !(ev.Datagram? && ev.wellFormed)
    ensures Doomed(Next(s, ev), t)
  {
    NewestOpen(s, e);
    match ev
    case ConnectFails(who, jitter) => DoomedFails(s, who, jitter, t);
    case LostReported(l, jitter) => DoomedLost(s, l, jitter, t);
    case TimerFires(h, jitter) => DoomedTimer(s, h, jitter, e, t);
    case _ => DoomedOther(s, ev, e, t);
  }

  /** A watchdog tick that leaves the endpoint open found it alive, or not yet handed over. */
  lemma SparedTimer(s: State, h: nat, jitter: real, e: nat)
    requires InvBesidesTimers(s) && Can(s, TimerFires(h, jitter)) && !s.stopped
    requires LinkIs(s, e, Open) && LinkIs(Next(s, TimerFires(h, jitter)), e, Open)
    ensures Alive(s) || s.timers[h].callback.KeepAlive? || Shaking(s)
  {}

  lemma DoomedFails(s: State, who: Coroutine, jitter: real, t: real)
    requires Inv(s) && Can(s, ConnectFails(who, jitter)) && Doomed(s, t) && s.endpoints != []
    ensures Doomed(Next(s, ConnectFails(who, jitter)), t)
  {
    if who.Worker? { RetrySuppressed(s, who.task, jitter); }
  }

  lemma DoomedOther(s: State, ev: Event, e: nat, t: real)
    requires InvBesidesTimers(s) && Can(s, ev) && Doomed(s, t) && LinkIs(s, e, Open) && e == |s.endpoints| - 1
    requires !ev.TimerFires? && !ev.LostReported? && !ev.StopCalled? && !ev.ConnectFails?
    requires !(ev.Datagram? && ev.wellFormed)
    ensures Doomed(Next(s, ev), t)
  {}

  lemma DoomedLost(s: State, l: nat, jitter: real, t: real)
    requires TimersInv(s) && Can(s, LostReported(l, jitter)) && t >= 0.0 && Doomed(s, t)
    ensures Doomed(Next(s, LostReported(l, jitter)), t)
  {
    LostIsRetire(s, l, jitter);
  }

  lemma DoomedTimer(s: State, h: nat, jitter: real, e: nat, t: real)
    requires Inv(s) && ClockInv(s) && Can(s, TimerFires(h, jitter)) && t >= 0.0 && Doomed(s, t) && !s.stopped
    requires LinkIs(s, e, Open) && LinkIs(Next(s, TimerFires(h, jitter)), e, Open)
    ensures Doomed(Next(s, TimerFires(h, jitter)), t)
  {
    SparedTimer(s, h, jitter, e);
    match s.timers[h].callback
    case KeepAlive(ep) => DoomedSend(s, h, ep, t);
    case CheckAlive => DoomedTick(s, h, jitter, t);
  }

  lemma DoomedSend(s: State, h: nat, e: nat, t: real)
    requires TimersInv(s) && Doomed(s, t) && h in s.timers && s.timers[h].callback == KeepAlive(e)
    ensures e < |s.endpoints| && Doomed(SendKeepAlive(s.(timers := s.timers - {h}), e), t)
  {}

  lemma DoomedTick(s: State, h: nat, jitter: real, t: real)
    requires TimersInv(s) && Doomed(s, t) && h in s.timers && s.timers[h].callback == CheckAlive
    requires t >= 0.0 && ProtocolKnown(s) && (Alive(s) || s.now == t)
    ensures Doomed(CheckAliveFires(s.(timers := s.timers - {h}), jitter), t)
  {}

  lemma {:induction false} DoomedRun(s: State, evs: seq<Event>, e: nat, t: real)
    requires StaysOpen(s, evs, e) && t >= 0.0 && Doomed(s, t)
    requires forall ev | ev in evs :: !(ev.Datagram? && ev.wellFormed)
    ensures Doomed(Run(s, evs), t)
    decreases |evs|
  {
    if evs != [] {
      StaysOpenStep(s, evs, e);
      DoomedStep(s, evs[0], e, t);
      DoomedRun(Next(s, evs[0]), evs[1..], e, t);
    }
  }

  lemma DoomedInTime(s: State, t: real)
    requires StartupInv(s) && TimersInv(s) && ClockInv(s) && Doomed(s, t) && s.endpoints != []
    ensures s.now < t + 140.0
  {}

  /** An endpoint heard at time t from which nothing more arrives is no longer open at t + 140. */
  lemma SilentClosedInTime(s: State, evs: seq<Event>, e: nat)
    requires Reachable(s) && LinkIs(s, e, Open) && CanRun(s, evs) && !Run(s, evs).stopped
    requires forall ev | ev in evs :: !(ev.Datagram? && ev.wellFormed)
    requires LinkIs(Run(s, evs), e, Open)
    ensures Run(s, evs).now < s.now + 140.0
  {
    ReachableFull(s);
    StrandedRun(s, evs);
    DoomedRun(s, evs, e, s.now);
    RunFull(s, evs);
    DoomedInTime(Run(s, evs), s.now);
  }
}
