/** When the push client recovers by itself, exactly. */
module BpupRecovery {
  import opened Prelude
  import opened BpupModel
  import opened BpupInvariant
  import opened BpupClock
  import opened BpupSafety

  predicate Live(s: State) { s.startup.Running? && !s.stopped }

  /** A reconnect is pending. */
  predicate Pending(s: State) { Current(s) != Done }

  /** Started, not stopped, and nothing will ever bring an endpoint back. */
  predicate Stranded(s: State) { Live(s) && s.protocol == None && !Pending(s) }

  /** A reconnect attempt that fails while the client holds no protocol. */
  predicate FatalFailure(s: State, ev: Event) { ev.ConnectFails? && ev.who.Worker? && s.protocol == None }

  predicate MeetsFatalFailure(s: State, evs: seq<Event>)
    requires CanRun(s, evs)
    decreases |evs|
  {
    evs != [] && (FatalFailure(s, evs[0]) || MeetsFatalFailure(Next(s, evs[0]), evs[1..]))
  }

  ghost predicate StrandedAsTold(s: State, ev: Event, after: State) {
    && (!Stranded(s) ==> (Stranded(after) <==> FatalFailure(s, ev)))
    && (Stranded(s) ==> (Stranded(after) <==> ev != StopCalled) && !FatalFailure(s, ev))
    && (s.stopped ==> after.stopped)
  }

  lemma StrandedStep(s: State, ev: Event)
    requires FullInv(s) && Can(s, ev)
    ensures StrandedAsTold(s, ev, Next(s, ev))
  {
    match ev
    case ConnectFails(who, jitter) => StrandedFails(s, who, jitter);
    case LostReported(e, jitter) => StrandedLost(s, e, jitter);
    case TimerFires(h, jitter) => StrandedTimer(s, h, jitter);
    case _ => StrandedOther(s, ev);
  }

  lemma StrandedFails(s: State, who: Coroutine, jitter: real)
    requires Inv(s) && Can(s, ConnectFails(who, jitter))
    ensures StrandedAsTold(s, ConnectFails(who, jitter), Next(s, ConnectFails(who, jitter)))
  {
    if who.Worker? { RetrySuppressed(s, who.task, jitter); }
  }

  lemma StrandedOther(s: State, ev: Event)
    requires InvBesidesTimers(s) && Can(s, ev)
    requires !ev.ConnectFails? && !ev.LostReported? && !ev.TimerFires?
    ensures StrandedAsTold(s, ev, Next(s, ev))
  {}

  lemma StrandedLost(s: State, e: nat, jitter: real)
    requires InvBesidesTimers(s) && Can(s, LostReported(e, jitter))
    ensures Stranded(Next(s, LostReported(e, jitter))) == Stranded(s)
    ensures s.stopped ==> Next(s, LostReported(e, jitter)).stopped
  {
    LostIsRetire(s, e, jitter);
  }

  lemma StrandedTimer(s: State, h: nat, jitter: real)
    requires InvBesidesTimers(s) && Can(s, TimerFires(h, jitter))
    ensures Stranded(Next(s, TimerFires(h, jitter))) == Stranded(s)
    ensures s.stopped ==> Next(s, TimerFires(h, jitter)).stopped
  {}

  lemma {:induction false} StrandedRun(s: State, evs: seq<Event>)
    requires FullInv(s) && CanRun(s, evs)
    ensures s.stopped ==> Run(s, evs).stopped
    ensures !Stranded(s) ==> (Stranded(Run(s, evs)) <==> MeetsFatalFailure(s, evs) && !Run(s, evs).stopped)
    ensures Stranded(s) ==> (Stranded(Run(s, evs)) <==> !Run(s, evs).stopped)
    decreases |evs|
  {
    if evs != [] {
      StrandedStep(s, evs[0]);
      NextFull(s, evs[0]);
      StrandedRun(Next(s, evs[0]), evs[1..]);
    }
  }

  /**
    Recovery, exactly: a started and unstopped client holds a protocol or has a reconnect pending,
    unless at some point a reconnect attempt failed while it held no protocol; and then it never
    does again.
   */
  lemma RecoversUnlessFatal(init: State, evs: seq<Event>)
    requires Initial(init) && CanRun(init, evs) && Live(Run(init, evs))
    ensures (Run(init, evs).protocol.Some? || Pending(Run(init, evs))) <==> !MeetsFatalFailure(init, evs)
  {
    InitialFull(init);
    StrandedRun(init, evs);
  }

  /** The stranded state absorbs every step but stop(). */
  lemma StrandedAbsorbs(s: State, ev: Event)
    requires Reachable(s) && Stranded(s) && Can(s, ev)
    ensures Stranded(Next(s, ev)) <==> ev != StopCalled
  {
    ReachableFull(s);
    StrandedStep(s, ev);
  }

  // ----- a dead protocol nobody is replacing

  /** The client still holds a protocol whose loss went unanswered (a suppressed or failed reconnect). */
  predicate DeadHeld(s: State) {
    Live(s) && !Pending(s) && s.protocol.Some? && LinkIs(s, s.protocol.value, Lost)
  }

  /** The protocol has been dropped and a reconnect scheduled 1 to 1.5 seconds away. */
  predicate Replaced(s: State, after: State) {
    && after.protocol == None && Live(after) && Current(after).Sleeping?
    && 1.0 <= Current(after).wake - s.now <= 1.5
  }

  /** The watchdog is armed, at most a timeout away... */
  lemma TickIsNear(s: State)
    requires FullInv(s) && Live(s)
    ensures s.watchdog.Some? && s.now <= DueAt(s, s.watchdog) <= s.now + 70.0
  {}

  ghost predicate StillHeld(s: State, after: State) {
    DeadHeld(after) && after.watchdog == s.watchdog && DueAt(after, s.watchdog) == DueAt(s, s.watchdog)
  }

  /** ...nothing but that tick and stop() changes the situation or moves the tick... */
  lemma DeadHeldUntilTick(s: State, ev: Event)
    requires FullInv(s) && DeadHeld(s) && Can(s, ev)
    ensures StillHeld(s, Next(s, ev)) || ev == StopCalled || (ev.TimerFires? && Some(ev.handle) == s.watchdog)
  {
    match ev
    case LostReported(e, jitter) => DeadHeldLost(s, e, jitter);
    case TimerFires(h, jitter) => if Some(h) != s.watchdog { DeadHeldTimer(s, h); }
    case StopCalled =>
    case _ => DeadHeldOther(s, ev);
  }

  lemma DeadHeldTimer(s: State, h: nat)
    requires Inv(s) && DeadHeld(s) && h in s.timers && Some(h) != s.watchdog
    ensures s.timers[h].callback.KeepAlive? && s.timers[h].callback.ep < |s.endpoints|
    ensures StillHeld(s, SendKeepAlive(s.(timers := s.timers - {h}), s.timers[h].callback.ep))
  {}

  lemma DeadHeldOther(s: State, ev: Event)
    requires InvBesidesTimers(s) && DeadHeld(s) && Can(s, ev)
    requires !ev.LostReported? && !ev.TimerFires? && !ev.StopCalled?
    ensures StillHeld(s, Next(s, ev))
  {}

  lemma DeadHeldLost(s: State, e: nat, jitter: real)
    requires Inv(s) && DeadHeld(s) && Can(s, LostReported(e, jitter))
    ensures StillHeld(s, Next(s, LostReported(e, jitter)))
  {
    LostIsRetire(s, e, jitter);
    assert Retired(s.endpoints[e]);
  }

  /** ...and that tick drops it and schedules a reconnect 1 to 1.5 seconds away. */
  lemma TickReplacesDead(s: State, h: nat, jitter: real)
    requires FullInv(s) && DeadHeld(s) && s.watchdog == Some(h) && Can(s, TimerFires(h, jitter))
    ensures Replaced(s, Next(s, TimerFires(h, jitter)))
  {
    assert s.lastMessage == NEVER;
  }

  /** Step i of the run is the tick of handle h; the dead protocol is held until then, and replaced by it. */
  ghost predicate ReplacedAt(s: State, evs: seq<Event>, i: nat, h: nat) {
    && i < |evs| && CanRun(s, evs[..i])
    && var at := Run(s, evs[..i]);
       && StillHeld(s, at) && evs[i].TimerFires? && evs[i].handle == h
       && Can(at, evs[i]) && Replaced(at, Next(at, evs[i]))
  }

  lemma ReplacedFirst(s: State, evs: seq<Event>, h: nat)
    requires FullInv(s) && DeadHeld(s) && s.watchdog == Some(h)
    requires evs != [] && Can(s, evs[0]) && evs[0].TimerFires? && evs[0].handle == h
    ensures ReplacedAt(s, evs, 0, h)
  {
    assert evs[..0] == [];
    TickReplacesDead(s, h, evs[0].jitter);
  }

  lemma ReplacedLater(s: State, evs: seq<Event>, i: nat, h: nat)
    requires evs != [] && Can(s, evs[0]) && StillHeld(s, Next(s, evs[0])) && ReplacedAt(Next(s, evs[0]), evs[1..], i, h)
    ensures ReplacedAt(s, evs, i + 1, h)
  {
    assert evs[..i + 1][1..] == evs[1..][..i];
  }

  /** Over any run that does not end stopped: still held, or the tick has come and replaced it. */
  lemma {:induction false} HeldOrReplaced(s: State, evs: seq<Event>, h: nat) returns (i: nat)
    requires FullInv(s) && DeadHeld(s) && s.watchdog == Some(h) && CanRun(s, evs)
    ensures Run(s, evs).stopped || StillHeld(s, Run(s, evs)) || ReplacedAt(s, evs, i, h)
    decreases |evs|
  {
    i := 0;
    if evs != [] {
      NextFull(s, evs[0]);
      StrandedRun(Next(s, evs[0]), evs[1..]);
      DeadHeldUntilTick(s, evs[0]);
      if evs[0].TimerFires? && evs[0].handle == h {
        ReplacedFirst(s, evs, h);
      } else if !Run(s, evs).stopped {
        NotStopped(s, evs[0]);
        i := HeldOrReplaced(Next(s, evs[0]), evs[1..], h);
        if !StillHeld(s, Run(s, evs)) {
          ReplacedLater(s, evs, i, h);
          i := i + 1;
        }
      }
    }
  }

  lemma HeldNotLong(s: State, after: State)
    requires FullInv(s) && Live(s) && FullInv(after)
    ensures StillHeld(s, after) ==> after.now <= s.now + 70.0
  {
    TickIsNear(s);
    if StillHeld(s, after) { TickIsNear(after); }
  }

  lemma NotStopped(s: State, ev: Event)
    requires Can(s, ev) && !Next(s, ev).stopped
    ensures ev != StopCalled
  {
    if ev == StopCalled { StopIsNext(s); }
  }

  /**
    A dead protocol with nothing pending is replaced in time: every run of more than 70 seconds that
    does not end stopped contains the tick, within those 70 seconds.
   */
  lemma DeadIsReplaced(s: State, evs: seq<Event>, h: nat) returns (i: nat)
    requires Reachable(s) && DeadHeld(s) && s.watchdog == Some(h) && CanRun(s, evs) && !Run(s, evs).stopped
    requires Run(s, evs).now > s.now + 70.0
    ensures ReplacedAt(s, evs, i, h) && Run(s, evs[..i]).now <= s.now + 70.0
  {
    ReachableFull(s);
    RunFull(s, evs);
    i := HeldOrReplaced(s, evs, h);
    HeldNotLong(s, Run(s, evs));
    RunFull(s, evs[..i]);
    HeldNotLong(s, Run(s, evs[..i]));
  }

  // ----- what a reported loss and a tick do

  /**
    A reported loss makes push dead and takes the endpoint's timer away; a reconnect is scheduled
    exactly when none is pending and the endpoint was the assigned one or about to be.
   */
  lemma LossDoes(s: State, e: nat, jitter: real)
    requires Reachable(s) && Can(s, LostReported(e, jitter))
    ensures var after := Next(s, LostReported(e, jitter));
            && !Alive(after) && LinkIs(after, e, Lost) && after.endpoints[e].keepAlive == None
            && (forall h | h in after.timers :: after.timers[h].callback != KeepAlive(e))
            && (|after.tasks| > |s.tasks| <==>
                  !s.stopped && !Pending(s) && (s.protocol == Some(e) || Start(s) == Handshake(e)))
  {
    ReachableFull(s);
    LostIsRetire(s, e, jitter);
    RetireDoes(s, e);
    if s.endpoints[e].wired && !s.stopped && !Pending(s) { assert !Retired(s.endpoints[e]); }
  }

  lemma RetireDoes(s: State, e: nat)
    requires TimersInv(s) && e < |s.endpoints|
    ensures var lost := Retire(s, e, s.endpoints[e].wired, Lost);
            && lost.lastMessage == NEVER && lost.now == s.now && lost.tasks == s.tasks
            && lost.reconnect == s.reconnect && lost.stopped == s.stopped
            && |lost.endpoints| == |s.endpoints| && lost.endpoints[e] == Endpoint(Lost, s.endpoints[e].wired, None)
            && forall h | h in lost.timers :: lost.timers[h].callback != KeepAlive(e)
  {}

  /** The client's own fields and endpoints, as a tick that finds nothing to do leaves them. */
  ghost predicate Untouched(s: State, after: State) {
    && after.endpoints == s.endpoints && after.tasks == s.tasks && after.protocol == s.protocol
    && after.lastMessage == s.lastMessage && after.reconnect == s.reconnect
  }

  /** A tick arms the next one 70 seconds on; it touches nothing else unless push is dead. */
  lemma TickDoes(s: State, h: nat, jitter: real)
    requires Reachable(s) && Live(s) && s.watchdog == Some(h) && Can(s, TimerFires(h, jitter))
    ensures var after := Next(s, TimerFires(h, jitter));
            && DueAt(after, after.watchdog) == s.now + 70.0
            && (Alive(s) || s.protocol == None ==> Untouched(s, after))
            && after.delay == (if Alive(s) then s.delay else if |after.tasks| > |s.tasks| then 2.0 else 1.0)
            && (!Alive(s) && s.protocol.Some? ==>
                  Dismissed(after, s.protocol.value) && after.protocol == None && !Alive(after) && Pending(after))
  {
    ReachableFull(s);
    var fired := s.(timers := s.timers - {h});
    if !Alive(s) && s.protocol.Some? { DropDoes(s, fired, s.protocol.value, jitter); }
  }

  lemma DropDoes(s: State, fired: State, e: nat, jitter: real)
    requires InvBesidesTimers(s) && Live(s) && s.protocol == Some(e) && TimersInv(s) && e < |s.endpoints|
    requires fired == s.(timers := fired.timers) && fired.timers.Keys <= s.timers.Keys
    requires forall h | h in fired.timers :: fired.timers[h] == s.timers[h]
    ensures var dropped := DropDeadProtocol(fired, jitter);
            && Dismissed(ScheduleWatchdog(dropped), e) && dropped.protocol == None && !dropped.stopped
            && dropped.lastMessage == NEVER && dropped.now == s.now && Pending(dropped)
            && dropped.delay == (if |dropped.tasks| > |s.tasks| then 2.0 else 1.0)
  {
    var unassigned := fired.(delay := RECONNECT_MIN_DELAY, protocol := None);
    DismissesOnly(s, unassigned, e);
  }

  lemma DismissesOnly(s: State, before: State, e: nat)
    requires TimersInv(s) && e < |s.endpoints| && before.endpoints == s.endpoints && before.handles == s.handles
    requires before.timers.Keys <= s.timers.Keys && forall h | h in before.timers :: before.timers[h] == s.timers[h]
    ensures Dismissed(ProtocolStop(before, e), e)
  {}
}
