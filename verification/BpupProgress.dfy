/** The event loop never blocks, and time goes on: from every reachable state, to any later instant. */
module BpupProgress {
  import opened Prelude
  import opened BpupModel
  import opened BpupInvariant
  import opened BpupClock

  /** The steps the loop takes by itself: nothing arrives, fails or connects, and nobody calls stop(). */
  predicate Own(ev: Event) {
    ev.EndpointMade? || ev.Assigned? || ev.SleepOver? || ev.CancelDelivered? || ev.TimerFires? || ev.TimePasses?
  }

  /** A run of such steps that ends exactly when the given time is reached. */
  ghost predicate Reaches(s: State, evs: seq<Event>, time: real)
    decreases |evs|
  {
    if evs == [] then s.now == time
    else s.now < time && Own(evs[0]) && Can(s, evs[0]) && Reaches(Next(s, evs[0]), evs[1..], time)
  }

  lemma {:induction false} ReachesRuns(s: State, evs: seq<Event>, time: real)
    requires Reaches(s, evs, time)
    ensures CanRun(s, evs) && Run(s, evs).now == time && s.now <= time
    decreases |evs|
  {
    if evs != [] { ReachesRuns(Next(s, evs[0]), evs[1..], time); }
  }

  lemma {:induction false} ReachesTrans(s: State, evs: seq<Event>, mid: real, more: seq<Event>, time: real)
    requires Reaches(s, evs, mid) && CanRun(s, evs) && Reaches(Run(s, evs), more, time) && mid <= time
    ensures Reaches(s, evs + more, time)
    decreases |evs|
  {
    if evs == [] {
      assert evs + more == more;
    } else {
      assert (evs + more)[1..] == evs[1..] + more;
      ReachesTrans(Next(s, evs[0]), evs[1..], mid, more, time);
    }
  }

  // ----- some step of the loop's own is always possible

  /** The earliest deadline among the timers. */
  lemma {:induction false} Earliest(timers: map<nat, Timer>, keys: set<nat>) returns (first: nat)
    requires keys <= timers.Keys && keys != {}
    ensures first in keys && forall h | h in keys :: timers[first].due <= timers[h].due
    decreases |keys|
  {
    var h :| h in keys;
    first := h;
    if keys != {h} {
      var rest := Earliest(timers, keys - {h});
      if timers[rest].due < timers[h].due { first := rest; }
    }
  }

  /** A timer or the task's sleep is over. */
  predicate DueNow(s: State) {
    (exists h :: h in s.timers && s.timers[h].due <= s.now) || (Current(s).Sleeping? && Current(s).wake <= s.now)
  }

  /** A step that lets time pass stops at the next deadline, and by the given time. */
  predicate Measured(s: State, ev: Event, time: real)
    requires Can(s, ev)
  {
    ev.TimePasses? ==> !DueNow(s) && Next(s, ev).now <= time && (Next(s, ev).now == time || DueNow(Next(s, ev)))
  }

  lemma NextStep(s: State, time: real) returns (ev: Event)
    requires FullInv(s) && s.now < time
    ensures Can(s, ev) && Own(ev) && Measured(s, ev, time)
  {
    var last := |s.tasks| - 1;
    if LastIs(s, Built) {
      ev := EndpointMade(|s.endpoints| - 1);
    } else if Start(s).Handshake? {
      ev := Assigned(Starter);
    } else if Current(s) != Done && s.tasks[last].cancelled {
      ev := CancelDelivered(last);
    } else if Current(s).Handshake? {
      ev := Assigned(Worker(last));
    } else if Current(s).Sleeping? && Current(s).wake <= s.now {
      ev := SleepOver(last);
    } else {
      AllQuiet(s);
      ev := TimeOrTimer(s, time);
    }
  }

  lemma AllQuiet(s: State)
    requires InvBesidesTimers(s) && !LastIs(s, Built) && !Shaking(s)
    requires Current(s) != Done ==> !s.tasks[|s.tasks| - 1].cancelled
    ensures Quiet(s)
  {}

  lemma TimeOrTimer(s: State, time: real) returns (ev: Event)
    requires TasksInv(s) && Quiet(s) && s.now < time && (Current(s).Sleeping? ==> Current(s).wake > s.now)
    requires ProtocolKnown(s) && TimersInv(s)
    ensures Can(s, ev) && Own(ev) && Measured(s, ev, time)
  {
    var horizon := if Current(s).Sleeping? && Current(s).wake < time then Current(s).wake else time;
    if s.timers != map[] {
      assert s.timers.Keys != {} by { var h :| h in s.timers; assert h in s.timers.Keys; }
      var h := Earliest(s.timers, s.timers.Keys);
      if s.timers[h].due <= s.now {
        return TimerFires(h, 0.0);
      }
      if s.timers[h].due < horizon { horizon := s.timers[h].due; }
      assert forall k | k in s.timers :: k in s.timers.Keys && horizon <= s.timers[k].due;
    }
    PassTo(s, horizon, time);
    return TimePasses(horizon - s.now);
  }

  lemma PassTo(s: State, horizon: real, time: real)
    requires TasksInv(s) && Quiet(s) && s.now < horizon <= time && NothingDueBefore(s, horizon)
    requires || horizon == time || (Current(s).Sleeping? && Current(s).wake == horizon)
             || exists h :: h in s.timers && s.timers[h].due == horizon
    ensures Can(s, TimePasses(horizon - s.now)) && Measured(s, TimePasses(horizon - s.now), time)
  {
    var after := Next(s, TimePasses(horizon - s.now));
    if h :| h in s.timers && s.timers[h].due == horizon { assert h in after.timers; }
  }

  /** In every reachable state some step of the loop's own is possible. */
  lemma NeverBlocks(s: State) returns (ev: Event)
    requires Reachable(s)
    ensures Can(s, ev) && Own(ev)
  {
    ReachableFull(s);
    ev := NextStep(s, s.now + 1.0);
  }

  // ----- no more than so many of them before time passes

  function DueBefore(s: State, time: real): set<nat> { set h | h in s.timers && s.timers[h].due < time }

  function One(b: bool): nat { if b then 1 else 0 }

  predicate Cancelled(s: State) { Current(s) != Done && s.tasks[|s.tasks| - 1].cancelled }

  /** What the loop has still to do before the given time. */
  function Load(s: State, time: real): nat {
    |DueBefore(s, time)| + One(Current(s).Sleeping? && Current(s).wake < time)
    + One(LastIs(s, Built)) + One(Shaking(s)) + One(Cancelled(s))
  }

  lemma SubsetSize(a: set<nat>, b: set<nat>)
    requires a <= b
    ensures |a| <= |b| && (a != b ==> |a| < |b|)
  {
    assert b == a + (b - a);
    if a != b {
      var x :| x in b && x !in a;
      assert x in b - a;
    }
  }

  predicate Soon(s: State, time: real) { s.now < time <= s.now + RECONNECT_MIN_DELAY }

  /** Timers and sleeps set within a second of the given time end after it. */
  lemma LoadFalls(s: State, ev: Event, time: real)
    requires FullInv(s) && Can(s, ev) && Own(ev) && !ev.TimePasses? && Soon(s, time)
    ensures Load(Next(s, ev), time) < Load(s, time)
  {
    match ev
    case EndpointMade(e) => MadeLoad(s, e, time);
    case Assigned(who) => AssignLoad(s, who, time);
    case SleepOver(t) => SleepLoad(s, t, time);
    case CancelDelivered(t) => CancelLoad(s, t, time);
    case TimerFires(h, jitter) => FireLoad(s, h, jitter, time);
  }

  lemma MadeLoad(s: State, e: nat, time: real)
    requires Inv(s) && Can(s, EndpointMade(e)) && Soon(s, time)
    ensures Load(Next(s, EndpointMade(e)), time) < Load(s, time)
  {
    SubsetSize(DueBefore(Next(s, EndpointMade(e)), time), DueBefore(s, time));
  }

  lemma AssignLoad(s: State, who: Coroutine, time: real)
    requires Inv(s) && Can(s, Assigned(who)) && Soon(s, time)
    ensures Load(Next(s, Assigned(who)), time) < Load(s, time)
  {
    SubsetSize(DueBefore(Next(s, Assigned(who)), time), DueBefore(s, time));
  }

  lemma SleepLoad(s: State, t: nat, time: real)
    requires Inv(s) && Can(s, SleepOver(t)) && Soon(s, time)
    ensures Load(Next(s, SleepOver(t)), time) < Load(s, time)
  {
    assert DueBefore(Next(s, SleepOver(t)), time) == DueBefore(s, time);
  }

  lemma CancelLoad(s: State, t: nat, time: real)
    requires Inv(s) && Can(s, CancelDelivered(t)) && Soon(s, time)
    ensures Load(Next(s, CancelDelivered(t)), time) < Load(s, time)
  {
    assert DueBefore(Next(s, CancelDelivered(t)), time) == DueBefore(s, time);
  }

  lemma FireLoad(s: State, h: nat, jitter: real, time: real)
    requires FullInv(s) && Can(s, TimerFires(h, jitter)) && Soon(s, time)
    ensures Load(Next(s, TimerFires(h, jitter)), time) < Load(s, time)
  {
    FireDue(s, h, jitter, time);
    FireRest(s, h, jitter, time);
  }

  lemma FireDue(s: State, h: nat, jitter: real, time: real)
    requires TimersInv(s) && Can(s, TimerFires(h, jitter)) && Soon(s, time)
    ensures |DueBefore(Next(s, TimerFires(h, jitter)), time)| < |DueBefore(s, time)|
  {
    assert h in DueBefore(s, time) && h !in DueBefore(Next(s, TimerFires(h, jitter)), time);
    SubsetSize(DueBefore(Next(s, TimerFires(h, jitter)), time), DueBefore(s, time));
  }

  /** The task, the newest endpoint and the connects under way demand no more than before. */
  ghost predicate NoBusier(s: State, after: State, time: real) {
    && (Current(after) == Current(s) || (Current(after).Sleeping? && Current(after).wake >= time))
    && (LastIs(after, Built) ==> LastIs(s, Built)) && (Shaking(after) ==> Shaking(s))
    && (Cancelled(after) ==> Cancelled(s))
  }

  lemma FireRest(s: State, h: nat, jitter: real, time: real)
    requires InvBesidesTimers(s) && Can(s, TimerFires(h, jitter)) && Soon(s, time)
    ensures NoBusier(s, Next(s, TimerFires(h, jitter)), time)
  {
    var fired := s.(timers := s.timers - {h});
    match s.timers[h].callback
    case KeepAlive(e) => SendNoBusier(s, fired, e, time);
    case CheckAlive => TickNoBusier(s, fired, jitter, time);
  }

  lemma SendNoBusier(s: State, fired: State, e: nat, time: real)
    requires fired == s.(timers := fired.timers) && e < |s.endpoints|
    ensures NoBusier(s, SendKeepAlive(fired, e), time)
  {}

  lemma TickNoBusier(s: State, fired: State, jitter: real, time: real)
    requires InvBesidesTimers(s) && fired == s.(timers := fired.timers) && ProtocolKnown(fired) && Soon(s, time)
    requires 0.0 <= jitter
    ensures NoBusier(s, CheckAliveFires(fired, jitter), time)
  {
    if !Alive(fired) { DropNoBusier(s, fired, jitter, time); }
    RearmNoBusier(s, if Alive(fired) then fired else DropDeadProtocol(fired, jitter), time);
  }

  lemma RearmNoBusier(s: State, checked: State, time: real)
    requires NoBusier(s, checked, time)
    ensures NoBusier(s, ScheduleWatchdog(checked), time)
  {}

  lemma DropNoBusier(s: State, fired: State, jitter: real, time: real)
    requires InvBesidesTimers(s) && fired == s.(timers := fired.timers) && ProtocolKnown(fired) && Soon(s, time)
    requires 0.0 <= jitter
    ensures NoBusier(s, DropDeadProtocol(fired, jitter), time)
  {
    if s.protocol.Some? {
      var dropped := ProtocolStop(fired.(delay := RECONNECT_MIN_DELAY, protocol := None), s.protocol.value);
      assert NoBusier(s, dropped, time) && dropped.tasks == s.tasks && dropped.delay == RECONNECT_MIN_DELAY;
    }
  }

  /** Within a second. */
  lemma {:induction false} Drive(s: State, time: real) returns (evs: seq<Event>)
    requires FullInv(s) && s.now <= time <= s.now + RECONNECT_MIN_DELAY
    ensures Reaches(s, evs, time)
    decreases One(s.now < time), Load(s, time), One(!DueNow(s))
  {
    if s.now == time {
      evs := [];
    } else {
      var ev := NextStep(s, time);
      NextFull(s, ev);
      if ev.TimePasses? { PassLoad(s, ev.dt, time); } else { LoadFalls(s, ev, time); TimeStands(s, ev); }
      var rest := Drive(Next(s, ev), time);
      evs := [ev] + rest;
      assert evs[1..] == rest;
    }
  }

  lemma PassLoad(s: State, dt: real, time: real)
    requires Can(s, TimePasses(dt))
    ensures Load(Next(s, TimePasses(dt)), time) == Load(s, time)
  {
    assert DueBefore(Next(s, TimePasses(dt)), time) == DueBefore(s, time);
  }

  lemma TimeStands(s: State, ev: Event)
    requires Inv(s) && Can(s, ev) && !ev.TimePasses?
    ensures Next(s, ev).now == s.now
  {
    if IsCalm(s, ev) { NextCalm(s, ev); }
  }

  lemma {:induction false} DriveOn(s: State, time: real, seconds: nat) returns (evs: seq<Event>)
    requires FullInv(s) && s.now <= time <= s.now + seconds as real
    ensures Reaches(s, evs, time)
    decreases seconds
  {
    if time <= s.now + RECONNECT_MIN_DELAY {
      evs := Drive(s, time);
    } else {
      var mid := s.now + RECONNECT_MIN_DELAY;
      var first := Drive(s, mid);
      ReachesRuns(s, first, mid);
      RunFull(s, first);
      var rest := DriveOn(Run(s, first), time, seconds - 1);
      ReachesTrans(s, first, mid, rest, time);
      evs := first + rest;
    }
  }

  /** Time goes on: from every reachable state some run of the loop's own steps ends at any later instant. */
  lemma TimeGoesOn(s: State, time: real) returns (evs: seq<Event>)
    requires Reachable(s) && s.now <= time
    ensures Reaches(s, evs, time) && CanRun(s, evs) && Run(s, evs).now == time
  {
    ReachableFull(s);
    evs := DriveOn(s, time, (time - s.now).Floor + 1);
    ReachesRuns(s, evs, time);
  }
}
