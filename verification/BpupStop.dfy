/** What can still happen after stop(): which transports stay open, and what can still be heard. */
module BpupStop {
  import opened Prelude
  import opened BpupModel
  import opened BpupInvariant
  import opened BpupClock
  import opened BpupSafety
  import opened BpupProgress
  import opened BpupTiming

  /** Every transport is closing or lost. */
  predicate NoneOpen(s: State) { forall e | 0 <= e < |s.endpoints| :: Weight(s.endpoints[e].link) <= 1 }

  lemma NoneOpenStays(s: State, ev: Event)
    requires FullInv(s) && s.stopped && Can(s, ev) && NoneOpen(s)
    ensures NoneOpen(Next(s, ev))
  {
    StoppedStep(s, ev);
    NoneHeavier(s, ev);
  }

  /** Time passes only when no connect is under way, and after stop() nothing else keeps a transport open. */
  lemma NoneOpenWhenQuiet(s: State)
    requires InvBesidesTimers(s) && s.stopped && Quiet(s)
    ensures NoneOpen(s)
  {
    QuietNotShaking(s);
  }

  /** Once closed, for good. */
  lemma {:induction false} ClosedForGood(s: State, evs: seq<Event>)
    requires FullInv(s) && s.stopped && CanRun(s, evs) && NoneOpen(s)
    ensures NoneOpen(Run(s, evs))
    decreases |evs|
  {
    if evs != [] {
      NoneOpenStays(s, evs[0]);
      NextFull(s, evs[0]);
      StoppedStep(s, evs[0]);
      ClosedForGood(Next(s, evs[0]), evs[1..]);
    }
  }

  lemma {:induction false} ClosedRun(s: State, evs: seq<Event>)
    requires FullInv(s) && s.stopped && CanRun(s, evs) && Run(s, evs).now != s.now
    ensures NoneOpen(Run(s, evs))
    decreases |evs|
  {
    if evs[0].TimePasses? {
      NoneOpenWhenQuiet(s);
      ClosedForGood(s, evs);
    } else {
      TimeStands(s, evs[0]);
      NextFull(s, evs[0]);
      StoppedStep(s, evs[0]);
      ClosedRun(Next(s, evs[0]), evs[1..]);
    }
  }

  /** Every run after stop(): as soon as any time has passed, every transport is closing or lost. */
  lemma ClosedOnceTimePasses(s: State, evs: seq<Event>)
    requires Reachable(s) && s.stopped && CanRun(s, evs) && Run(s, evs).now != s.now
    ensures NoneOpen(Run(s, evs))
  {
    ReachableFull(s);
    ClosedRun(s, evs);
  }

  // ----- what can still be heard

  /**
    Between two states after stop(): what was heard was heard by the newest endpoint in the instant of
    the first, and only if that one had a transport not yet closing; the clock is as it was, wiped, or
    set in that instant by what was heard.
   */
  ghost predicate Hushed(s: State, after: State) {
    && |after.endpoints| == |s.endpoints|
    && |s.heard| <= |after.heard| && after.heard[..|s.heard|] == s.heard
    && (forall j | |s.heard| <= j < |after.heard| ::
          after.heard[j].ep == |s.endpoints| - 1 && after.heard[j].at == s.now)
    && (after.heard != s.heard ==> !NoneOpen(s))
    && (after.lastMessage == s.lastMessage || after.lastMessage == NEVER
        || (after.heard != s.heard && after.lastMessage == s.now))
    && (!NoneOpen(after) ==> !NoneOpen(s) && after.now == s.now)
  }

  lemma HushedTrans(s: State, mid: State, after: State)
    requires Hushed(s, mid) && Hushed(mid, after)
    ensures Hushed(s, after)
  {
    assert after.heard[..|s.heard|] == after.heard[..|mid.heard|][..|s.heard|];
    forall j | |s.heard| <= j < |mid.heard|
      ensures after.heard[j] == mid.heard[j]
    {
      assert after.heard[..|mid.heard|][j] == mid.heard[j];
    }
  }

  lemma HushedStep(s: State, ev: Event)
    requires FullInv(s) && s.stopped && Can(s, ev)
    ensures Hushed(s, Next(s, ev))
  {
    StoppedStep(s, ev);
    if NoneOpen(s) { NoneOpenStays(s, ev); }
    match ev
    case Datagram(e, wellFormed) => HushedDatagram(s, e, wellFormed);
    case TimePasses(dt) => NoneOpenWhenQuiet(s);
    case _ => HushedOther(s, ev);
  }

  lemma HushedDatagram(s: State, e: nat, wellFormed: bool)
    requires EndpointsInv(s) && Can(s, Datagram(e, wellFormed))
    ensures Hushed(s, Next(s, Datagram(e, wellFormed)))
  {
    assert Weight(s.endpoints[e].link) == 2;
  }

  lemma HushedOther(s: State, ev: Event)
    requires Inv(s) && Can(s, ev) && !ev.Datagram? && !ev.TimePasses? && |Next(s, ev).endpoints| == |s.endpoints|
    requires NoneOpen(s) ==> NoneOpen(Next(s, ev))
    ensures Hushed(s, Next(s, ev))
  {
    TimeStands(s, ev);
    if IsCalm(s, ev) { NextCalm(s, ev); }
  }

  lemma {:induction false} HushedRun(s: State, evs: seq<Event>)
    requires FullInv(s) && s.stopped && CanRun(s, evs)
    ensures Hushed(s, Run(s, evs))
    decreases |evs|
  {
    if evs != [] {
      HushedStep(s, evs[0]);
      NextFull(s, evs[0]);
      StoppedStep(s, evs[0]);
      HushedRun(Next(s, evs[0]), evs[1..]);
      HushedTrans(s, Next(s, evs[0]), Run(s, evs));
    }
  }

  /** All that can be heard after stop(), and what becomes of the clock: for every continuation of every run. */
  lemma HushedAfterStop(s: State, evs: seq<Event>)
    requires Reachable(s) && Can(s, StopCalled) && CanRun(Stop(s), evs)
    ensures Hushed(Stop(s), Run(Stop(s), evs))
  {
    StopFull(s);
    HushedRun(Stop(s), evs);
  }

  /** stop() leaves a transport open exactly when it finds the task in the handshake of one that is. */
  lemma StopLeavesOpen(s: State)
    requires Reachable(s) && Can(s, StopCalled)
    ensures !NoneOpen(Stop(s)) <==> Current(s).Handshake? && InService(s, Current(s).ep)
  {
    ReachableFull(s);
    HaltKeeps(s);
    if s.protocol.Some? {
      StopClosesOwn(s, s.protocol.value);
    } else {
      OnlyHandshakeOpen(s, Stop(s));
    }
  }

  lemma StopClosesOwn(s: State, e: nat)
    requires InvBesidesTimers(s) && s.startup.Running? && s.protocol == Some(e) && Halt(s).endpoints == s.endpoints
    ensures !NoneOpen(Stop(s)) <==> Current(s).Handshake? && InService(s, Current(s).ep)
  {
    var after := Stop(s);
    assert after.endpoints == s.endpoints[e := Endpoint(Close(s.endpoints[e].link), false, None)];
    OnlyHandshakeOpen(s, after);
  }

  lemma OnlyHandshakeOpen(s: State, after: State)
    requires InvBesidesTimers(s) && s.startup.Running?
    requires after.endpoints ==
               if s.protocol == None then s.endpoints
               else s.endpoints[s.protocol.value := Endpoint(Close(s.endpoints[s.protocol.value].link), false, None)]
    ensures !NoneOpen(after) <==> Current(s).Handshake? && InService(s, Current(s).ep)
  {
    if Current(s).Handshake? && InService(s, Current(s).ep) {
      assert Weight(after.endpoints[Current(s).ep].link) >= 2;
    }
  }

  predicate CanHear(s: State, evs: seq<Event>) { CanRun(s, evs) && Run(s, evs).heard != s.heard }

  /** Exactly when something can still be heard: a transport is not yet closing. */
  lemma HeardAfterStop(s: State)
    requires Reachable(s) && s.stopped
    ensures (exists evs :: CanHear(s, evs)) <==> !NoneOpen(s)
  {
    ReachableFull(s);
    forall evs | CanHear(s, evs) ensures !NoneOpen(s) {
      HushedRun(s, evs);
    }
    if !NoneOpen(s) {
      var e: nat :| e < |s.endpoints| && Weight(s.endpoints[e].link) > 1;
      if s.endpoints[e].link == Built { MadeHears(s, e); } else { OpenHears(s, e); }
    }
  }

  lemma OpenHears(s: State, e: nat)
    requires LinkIs(s, e, Open)
    ensures CanHear(s, [Datagram(e, true)]) && Alive(Run(s, [Datagram(e, true)]))
  {
    var evs := [Datagram(e, true)];
    assert CanRun(Next(s, evs[0]), evs[1..]) && Run(s, evs) == Next(s, evs[0]);
  }

  lemma MadeHears(s: State, e: nat)
    requires LinkIs(s, e, Built)
    ensures CanHear(s, [EndpointMade(e), Datagram(e, true)]) && Alive(Run(s, [EndpointMade(e), Datagram(e, true)]))
  {
    var evs := [EndpointMade(e), Datagram(e, true)];
    var made := Next(s, evs[0]);
    assert evs[1..] == [Datagram(e, true)] && LinkIs(made, e, Open) && made.heard == s.heard;
    OpenHears(made, e);
    assert Run(made, evs[1..]) == Next(made, Datagram(e, true));
  }

  predicate CanBeAlive(s: State, evs: seq<Event>) { CanRun(s, evs) && Alive(Run(s, evs)) }

  /**
    Exactly when push can ever be alive after stop(): stop() finds no protocol while push is alive, or
    finds the task in the handshake of an endpoint whose transport is not yet closing.
   */
  lemma AliveAfterStop(s: State)
    requires Reachable(s) && Can(s, StopCalled)
    ensures (exists evs :: CanBeAlive(Stop(s), evs)) <==>
              (s.protocol == None && Alive(s)) || (Current(s).Handshake? && InService(s, Current(s).ep))
  {
    StopDoes(s);
    StopFull(s);
    StopLeavesOpen(s);
    if NoneOpen(Stop(s)) {
      forall evs | CanBeAlive(Stop(s), evs) ensures Alive(Stop(s)) {
        StaysDead(Stop(s), evs);
      }
      if Alive(Stop(s)) { assert CanBeAlive(Stop(s), []); }
    } else {
      OpenCanBeAlive(Stop(s));
    }
  }

  lemma OpenCanBeAlive(s: State)
    requires !NoneOpen(s)
    ensures exists evs :: CanBeAlive(s, evs)
  {
    var e: nat :| e < |s.endpoints| && Weight(s.endpoints[e].link) > 1;
    if s.endpoints[e].link == Built {
      MadeHears(s, e);
      assert CanBeAlive(s, [EndpointMade(e), Datagram(e, true)]);
    } else {
      OpenHears(s, e);
      assert CanBeAlive(s, [Datagram(e, true)]);
    }
  }

  lemma StaysDead(s: State, evs: seq<Event>)
    requires FullInv(s) && s.stopped && NoneOpen(s) && CanRun(s, evs)
    ensures Alive(Run(s, evs)) ==> Alive(s)
  {
    HushedRun(s, evs);
    RunAdvances(s, evs);
    RunFull(s, evs);
  }

  /** stop() of a client with a protocol, outside such a handshake: push is dead, over every continuation. */
  lemma DeadAfterStop(s: State, evs: seq<Event>)
    requires Reachable(s) && Can(s, StopCalled) && CanRun(Stop(s), evs)
    ensures s.protocol.Some? && !(Current(s).Handshake? && InService(s, Current(s).ep)) ==> !Alive(Run(Stop(s), evs))
  {
    AliveAfterStop(s);
    if Alive(Run(Stop(s), evs)) { assert CanBeAlive(Stop(s), evs); }
  }
}
