/** A bridge that answers: exactly when push stays alive. */
module BpupPrompt {
  import opened Prelude
  import opened BpupModel
  import opened BpupInvariant
  import opened BpupClock
  import opened BpupProgress
  import opened BpupRecovery
  import opened BpupTiming

  /** What the liveness limit leaves for an answer when every other keep-alive is lost. */
  const SLACK: real := 10.0

  /** How long an answer may take: less than so many seconds, or at most so many. */
  datatype Deadline = Before(seconds: real) | By(seconds: real)

  predicate InTime(limit: Deadline, sent: real, now: real) {
    now < sent + limit.seconds || (limit.By? && now == sent + limit.seconds)
  }

  /** Short enough to keep push alive with every other keep-alive lost: less than 10 seconds. */
  predicate FitsSlack(limit: Deadline) { limit.seconds < SLACK || limit == Before(SLACK) }

  /** Every keep-alive after the given one, unless lost, is answered in time. */
  ghost predicate Prompt(s: State, from: nat, lost: set<nat>, limit: Deadline) {
    forall i | from < i < |s.sent| && i !in lost ::
      || InTime(limit, s.sent[i].at, s.now)
      || exists j | 0 <= j < |s.heard| :: s.heard[j].ep == s.sent[i].ep && s.sent[i].at <= s.heard[j].at
  }

  /** ...in every state of a run that neither stops the client nor breaks the transport. */
  ghost predicate KeepsUp(s: State, evs: seq<Event>, e: nat, from: nat, lost: set<nat>, limit: Deadline)
    requires CanRun(s, evs)
    decreases |evs|
  {
    && Prompt(s, from, lost, limit)
    && (evs != [] ==>
          && evs[0] != StopCalled && evs[0] != TransportFails(e)
          && KeepsUp(Next(s, evs[0]), evs[1..], e, from, lost, limit))
  }

  ghost predicate NeverTwice(lost: set<nat>, from: nat) {
    forall i | i in lost && i > from :: i + 1 !in lost
  }

  /** The endpoint has been heard since its keep-alive number from, and no other endpoint can wipe the clock. */
  ghost predicate Heard(s: State, e: nat, from: nat) {
    && Live(s) && LinkIs(s, e, Open) && e == |s.endpoints| - 1
    && (forall l | 0 <= l < e :: s.endpoints[l].link == Lost)
    && from < |s.sent| && s.sent[from].ep == e && s.sent[from].at <= s.lastMessage
    && forall j | 0 <= j < |s.heard| :: s.heard[j].at <= s.lastMessage
  }

  lemma {:induction false} CadenceSpan(log: seq<Packet>, i: nat, j: nat)
    requires Cadence(log) && i <= j < |log| && log[i].ep == log[j].ep
    ensures log[j].at == log[i].at + 30.0 * (j - i) as real
    decreases j
  {
    if i < j {
      var k := j - 1;
      assert log[i].ep <= log[k].ep <= log[j].ep;
      CadenceSpan(log, i, k);
    }
  }

  /** Keep-alive i, unless lost, has been heard of once its answer is overdue. */
  lemma AnsweredSince(s: State, e: nat, from: nat, lost: set<nat>, limit: Deadline, i: nat)
    requires Heard(s, e, from) && Prompt(s, from, lost, limit) && from <= i < |s.sent| && i !in lost
    requires i > from ==> !InTime(limit, s.sent[i].at, s.now)
    ensures s.lastMessage >= s.sent[i].at
  {}

  lemma HeardIsAlive(s: State, e: nat, from: nat, lost: set<nat>, limit: Deadline)
    requires FullInv(s) && Heard(s, e, from) && Prompt(s, from, lost, limit) && NeverTwice(lost, from)
    requires from !in lost && FitsSlack(limit)
    ensures Alive(s)
  {
    var n := |s.sent| - 1;
    assert s.now <= s.sent[n].at + 30.0;
    CadenceSpan(s.sent, from, n);
    if n >= from + 1 { CadenceSpan(s.sent, n - 1, n); }
    if n >= from + 2 { CadenceSpan(s.sent, n - 2, n); }
    if n == from || (n !in lost && !InTime(limit, s.sent[n].at, s.now)) {
      AnsweredSince(s, e, from, lost, limit, n);
    } else if n - 1 !in lost {
      AnsweredSince(s, e, from, lost, limit, n - 1);
    } else {
      AnsweredSince(s, e, from, lost, limit, n - 2);
    }
  }

  lemma HeardStep(s: State, ev: Event, e: nat, from: nat)
    requires FullInv(s) && Heard(s, e, from) && Alive(s) && Can(s, ev) && ev != StopCalled && ev != TransportFails(e)
    ensures Heard(Next(s, ev), e, from)
  {
    assert (Current(s) == Done && s.protocol == Some(e)) || Current(s).Handshake?;
    match ev
    case TimerFires(h, jitter) => HeardTimer(s, h, jitter, e, from);
    case Datagram(l, wellFormed) => HeardDatagram(s, l, wellFormed, e, from);
    case _ => HeardOther(s, ev, e, from);
  }

  lemma HeardTimer(s: State, h: nat, jitter: real, e: nat, from: nat)
    requires TimersInv(s) && Heard(s, e, from) && Alive(s) && Can(s, TimerFires(h, jitter))
    ensures Heard(Next(s, TimerFires(h, jitter)), e, from)
  {}

  lemma HeardDatagram(s: State, l: nat, wellFormed: bool, e: nat, from: nat)
    requires LogInv(s) && ClockInv(s) && Heard(s, e, from) && Can(s, Datagram(l, wellFormed))
    ensures Heard(Next(s, Datagram(l, wellFormed)), e, from)
  {}

  lemma HeardOther(s: State, ev: Event, e: nat, from: nat)
    requires InvBesidesTimers(s) && Heard(s, e, from) && Can(s, ev) && ev != StopCalled && ev != TransportFails(e)
    requires (Current(s) == Done && s.protocol == Some(e)) || Current(s).Handshake?
    requires !ev.TimerFires? && !ev.Datagram?
    ensures Heard(Next(s, ev), e, from)
  {}

  lemma {:induction false} HeardStaysAlive(s: State, evs: seq<Event>, e: nat, from: nat, lost: set<nat>,
                                           limit: Deadline)
    requires FullInv(s) && Heard(s, e, from) && CanRun(s, evs)
    requires KeepsUp(s, evs, e, from, lost, limit) && NeverTwice(lost, from) && from !in lost && FitsSlack(limit)
    ensures Alive(Run(s, evs)) && LinkIs(Run(s, evs), e, Open)
    decreases |evs|
  {
    HeardIsAlive(s, e, from, lost, limit);
    if evs != [] {
      HeardStep(s, evs[0], e, from);
      NextFull(s, evs[0]);
      HeardStaysAlive(Next(s, evs[0]), evs[1..], e, from, lost, limit);
    }
  }

  // ----- from the first answer on

  /** The first answer: a datagram arrives at the open endpoint. */
  function Answered(s: State, e: nat): State
    requires LinkIs(s, e, Open)
  {
    Next(s, Datagram(e, true))
  }

  /** The first answer of an endpoint whose predecessors have all reported their loss. */
  lemma FirstAnswer(s: State, e: nat)
    requires FullInv(s) && Live(s) && LinkIs(s, e, Open) && Alone(s, e)
    ensures s.sent != [] && Heard(Answered(s, e), e, |s.sent| - 1) && FullInv(Answered(s, e))
    ensures Answered(s, e).sent == s.sent
  {
    NewestOpen(s, e);
    NextFull(s, Datagram(e, true));
  }

  /**
    A run from the first answer on in which the bridge answers every later keep-alive it receives within
    the limit, and never misses two in a row.
   */
  ghost predicate KeptUp(s: State, evs: seq<Event>, e: nat, lost: set<nat>, limit: Deadline) {
    && LinkIs(s, e, Open) && s.sent != [] && CanRun(Answered(s, e), evs)
    && |s.sent| - 1 !in lost && NeverTwice(lost, |s.sent| - 1)
    && KeepsUp(Answered(s, e), evs, e, |s.sent| - 1, lost, limit)
  }

  /** Push is alive, on the same endpoint, after every such run. */
  ghost predicate StaysAlive(s: State, e: nat, limit: Deadline) {
    && LinkIs(s, e, Open)
    && forall evs, lost | KeptUp(s, evs, e, lost, limit) ::
         Alive(Run(Answered(s, e), evs)) && LinkIs(Run(Answered(s, e), evs), e, Open)
  }

  /**
    From its first answer on, a bridge that answers each keep-alive it receives within the limit and
    never misses two in a row is alive at every instant, exactly when no earlier endpoint has a loss
    left to report and the limit means less than 10 seconds.
   */
  lemma StaysAliveIff(s: State, e: nat, limit: Deadline)
    requires Reachable(s) && Live(s) && LinkIs(s, e, Open)
    ensures StaysAlive(s, e, limit) <==> Alone(s, e) && FitsSlack(limit)
  {
    ReachableFull(s);
    if !Alone(s, e) {
      var evs := WipedAfterAnswer(s, e, limit);
      assert KeptUp(s, evs, e, {}, limit);
    } else if !FitsSlack(limit) {
      var evs, lost := SlowAnswers(s, e, limit);
      assert KeptUp(s, evs, e, lost, limit);
    } else {
      forall evs, lost | KeptUp(s, evs, e, lost, limit)
        ensures Alive(Run(Answered(s, e), evs)) && LinkIs(Run(Answered(s, e), evs), e, Open)
      {
        PromptBridgeStaysAlive(s, evs, e, lost, limit);
      }
    }
  }

  lemma PromptBridgeStaysAlive(s: State, evs: seq<Event>, e: nat, lost: set<nat>, limit: Deadline)
    requires FullInv(s) && Live(s) && KeptUp(s, evs, e, lost, limit) && Alone(s, e) && FitsSlack(limit)
    ensures Alive(Run(Answered(s, e), evs)) && LinkIs(Run(Answered(s, e), evs), e, Open)
  {
    FirstAnswer(s, e);
    HeardStaysAlive(Answered(s, e), evs, e, |s.sent| - 1, lost, limit);
  }

  // ----- an earlier endpoint still draining: its loss wipes the clock just after the answer

  lemma Drains(s: State, e: nat) returns (l: nat)
    requires EndpointsInv(s) && LinkIs(s, e, Open) && !Alone(s, e)
    ensures l != e && LinkIs(s, l, Closing)
  {
    NewestOpen(s, e);
    l :| l < |s.endpoints| && l != e && s.endpoints[l].link != Lost;
  }

  lemma WipedAfterAnswer(s: State, e: nat, limit: Deadline) returns (evs: seq<Event>)
    requires FullInv(s) && LinkIs(s, e, Open) && !Alone(s, e)
    ensures KeptUp(s, evs, e, {}, limit) && !Alive(Run(Answered(s, e), evs))
  {
    var l := Drains(s, e);
    NewestOpen(s, e);
    var answered, lost := Answered(s, e), LostReported(l, 0.0);
    evs := [lost];
    assert evs[1..] == [] && Can(answered, lost);
    LostIsRetire(answered, l, 0.0);
    assert Next(answered, lost).sent == s.sent && Next(answered, lost).lastMessage == NEVER;
    assert KeepsUp(Next(answered, lost), [], e, |s.sent| - 1, {}, limit);
    assert Run(answered, evs) == Next(answered, lost);
  }

  // ----- a longer limit: every other keep-alive lost, and the other ones answered late

  lemma OwnKeepsClock(s: State, ev: Event)
    requires Can(s, ev) && Own(ev) && Alive(s)
    ensures Next(s, ev).lastMessage == s.lastMessage && Next(s, ev).heard == s.heard && s.sent <= Next(s, ev).sent
  {}

  /** Coasting from an answer: nothing arrives, and nothing but the log of keep-alives and the time changes. */
  ghost predicate Coasted(s: State, after: State, e: nat, from: nat) {
    && FullInv(after) && Heard(after, e, from)
    && after.lastMessage == s.lastMessage && after.heard == s.heard && s.sent <= after.sent
  }

  lemma {:induction false} Coast(s: State, evs: seq<Event>, e: nat, from: nat, time: real)
    requires FullInv(s) && Heard(s, e, from) && Reaches(s, evs, time) && time <= s.lastMessage + 70.0
    ensures CanRun(s, evs) && Run(s, evs).now == time && Coasted(s, Run(s, evs), e, from)
    decreases |evs|
  {
    if evs != [] {
      OwnKeepsClock(s, evs[0]);
      HeardStep(s, evs[0], e, from);
      NextFull(s, evs[0]);
      Coast(Next(s, evs[0]), evs[1..], e, from, time);
    }
  }

  /**
    The plan, for an endpoint whose keep-alive number from went out at the given time: the next one is
    lost, the one after it answered a little late, the third lost, and the fourth not answered in time.
   */
  ghost predicate OnPlan(s: State, e: nat, from: nat, start: real, late: real) {
    && FullInv(s) && Heard(s, e, from) && s.sent[from].at == start && s.now <= start + 130.0 + late
    && (s.now <= start + 60.0 + late
        || exists j | 0 <= j < |s.heard| :: s.heard[j].ep == e && start + 60.0 <= s.heard[j].at)
  }

  function Skipped(from: nat): set<nat> { {from + 1, from + 3} }

  /** A fourth keep-alive, sent 60 seconds after the second and not answered by now, is still in time. */
  predicate LateEnough(late: real, limit: Deadline) { 0.0 <= late < 10.0 && InTime(limit, 120.0, 130.0 + late) }

  lemma SentSince(s: State, e: nat, from: nat, i: nat)
    requires LogInv(s) && Heard(s, e, from) && from <= i < |s.sent|
    ensures s.sent[i].ep == e && s.sent[i].at == s.sent[from].at + 30.0 * (i - from) as real <= s.now
  {
    assert s.sent[from].ep <= s.sent[i].ep;
    CadenceSpan(s.sent, from, i);
  }

  lemma PlanIsPrompt(s: State, e: nat, from: nat, start: real, late: real, limit: Deadline)
    requires OnPlan(s, e, from, start, late) && LateEnough(late, limit)
    ensures Prompt(s, from, Skipped(from), limit)
  {
    forall i | from < i < |s.sent| && i !in Skipped(from)
      ensures || InTime(limit, s.sent[i].at, s.now)
              || exists j | 0 <= j < |s.heard| :: s.heard[j].ep == s.sent[i].ep && s.sent[i].at <= s.heard[j].at
    {
      SentSince(s, e, from, i);
      assert i == from + 2 || i == from + 4;
    }
  }

  lemma {:induction false} PlanKeepsUp(s: State, evs: seq<Event>, e: nat, from: nat, start: real, late: real,
                                       limit: Deadline, time: real)
    requires OnPlan(s, e, from, start, late) && LateEnough(late, limit)
    requires Reaches(s, evs, time) && time <= s.lastMessage + 70.0 && time <= start + 130.0 + late
    requires (exists j | 0 <= j < |s.heard| :: s.heard[j].ep == e && start + 60.0 <= s.heard[j].at)
             || time <= start + 60.0 + late
    ensures CanRun(s, evs) && KeepsUp(s, evs, e, from, Skipped(from), limit)
    decreases |evs|
  {
    PlanIsPrompt(s, e, from, start, late, limit);
    if evs != [] {
      OwnKeepsClock(s, evs[0]);
      HeardStep(s, evs[0], e, from);
      NextFull(s, evs[0]);
      ReachesRuns(Next(s, evs[0]), evs[1..], time);
      PlanKeepsUp(Next(s, evs[0]), evs[1..], e, from, start, late, limit, time);
    }
  }

  lemma {:induction false} KeepsUpTrans(s: State, evs: seq<Event>, more: seq<Event>, e: nat, from: nat,
                                        lost: set<nat>, limit: Deadline)
    requires CanRun(s, evs) && KeepsUp(s, evs, e, from, lost, limit)
    requires CanRun(Run(s, evs), more) && KeepsUp(Run(s, evs), more, e, from, lost, limit)
    ensures CanRun(s, evs + more) && Run(s, evs + more) == Run(Run(s, evs), more)
    ensures KeepsUp(s, evs + more, e, from, lost, limit)
    decreases |evs|
  {
    if evs == [] {
      assert evs + more == more;
    } else {
      assert (evs + more)[1..] == evs[1..] + more;
      KeepsUpTrans(Next(s, evs[0]), evs[1..], more, e, from, lost, limit);
    }
  }

  /** The plan up to the late answer: nothing is heard until the second keep-alive is out and late. */
  lemma UpToLate(s: State, e: nat, from: nat, late: real, limit: Deadline) returns (evs: seq<Event>)
    requires FullInv(s) && Heard(s, e, from) && from == |s.sent| - 1
    requires LateEnough(late, limit)
    ensures CanRun(s, evs) && KeepsUp(s, evs, e, from, Skipped(from), limit)
    ensures Coasted(s, Run(s, evs), e, from) && Run(s, evs).now == s.sent[from].at + 60.0 + late
  {
    var start := s.sent[from].at;
    var time := start + 60.0 + late;
    assert s.now <= start + 30.0;
    evs := DriveOn(s, time, 90);
    Coast(s, evs, e, from, time);
    PlanKeepsUp(s, evs, e, from, start, late, limit, time);
  }

  ghost predicate AnsweredLate(s: State, e: nat, from: nat, start: real, late: real) {
    && OnPlan(s, e, from, start, late) && s.lastMessage == s.now == start + 60.0 + late
    && s.heard != [] && s.heard[|s.heard| - 1] == Packet(e, s.now)
  }

  lemma AnswerOnPlan(s: State, e: nat, from: nat, start: real, late: real)
    requires FullInv(s) && Heard(s, e, from) && s.sent[from].at == start && s.now == start + 60.0 + late
    ensures AnsweredLate(Answered(s, e), e, from, start, late)
  {
    var after := Answered(s, e);
    NextFull(s, Datagram(e, true));
    HeardDatagram(s, e, true, e, from);
    assert after.heard[|s.heard|] == Packet(e, s.now);
  }

  lemma AnswerKeepsUp(s: State, e: nat, from: nat, start: real, late: real, limit: Deadline) returns (evs: seq<Event>)
    requires FullInv(s) && Heard(s, e, from) && s.sent[from].at == start && s.now == start + 60.0 + late
    requires LateEnough(late, limit)
    ensures CanRun(s, evs) && KeepsUp(s, evs, e, from, Skipped(from), limit)
    ensures AnsweredLate(Run(s, evs), e, from, start, late)
  {
    AnswerOnPlan(s, e, from, start, late);
    PlanIsPrompt(s, e, from, start, late, limit);
    PlanIsPrompt(Answered(s, e), e, from, start, late, limit);
    evs := OneStep(s, Datagram(e, true), e, from, Skipped(from), limit);
  }

  lemma OneStep(s: State, ev: Event, e: nat, from: nat, lost: set<nat>, limit: Deadline) returns (evs: seq<Event>)
    requires Can(s, ev) && ev != StopCalled && ev != TransportFails(e)
    requires Prompt(s, from, lost, limit) && Prompt(Next(s, ev), from, lost, limit)
    ensures CanRun(s, evs) && KeepsUp(s, evs, e, from, lost, limit) && Run(s, evs) == Next(s, ev)
  {
    evs := [ev];
    var after := Next(s, ev);
    assert evs[1..] == [] && CanRun(after, []) && KeepsUp(after, [], e, from, lost, limit);
  }

  /** ...up to and with that answer. */
  lemma UpToAnswer(s: State, e: nat, from: nat, late: real, limit: Deadline) returns (evs: seq<Event>)
    requires FullInv(s) && Heard(s, e, from) && from == |s.sent| - 1
    requires LateEnough(late, limit)
    ensures CanRun(s, evs) && KeepsUp(s, evs, e, from, Skipped(from), limit)
    ensures AnsweredLate(Run(s, evs), e, from, s.sent[from].at, late)
  {
    var first := UpToLate(s, e, from, late, limit);
    var answer := AnswerKeepsUp(Run(s, first), e, from, s.sent[from].at, late, limit);
    KeepsUpTrans(s, first, answer, e, from, Skipped(from), limit);
    evs := first + answer;
  }

  /** ...and from there until the fourth is overdue, and push no longer alive. */
  lemma FromAnswer(s: State, e: nat, from: nat, start: real, late: real, limit: Deadline) returns (evs: seq<Event>)
    requires AnsweredLate(s, e, from, start, late) && LateEnough(late, limit)
    ensures CanRun(s, evs) && KeepsUp(s, evs, e, from, Skipped(from), limit) && !Alive(Run(s, evs))
  {
    var time := start + 130.0 + late;
    evs := DriveOn(s, time, 70);
    Coast(s, evs, e, from, time);
    PlanKeepsUp(s, evs, e, from, start, late, limit, time);
  }

  lemma SlowRun(s: State, e: nat, from: nat, late: real, limit: Deadline) returns (evs: seq<Event>)
    requires FullInv(s) && Heard(s, e, from) && from == |s.sent| - 1
    requires LateEnough(late, limit)
    ensures CanRun(s, evs) && KeepsUp(s, evs, e, from, Skipped(from), limit) && !Alive(Run(s, evs))
  {
    var first := UpToAnswer(s, e, from, late, limit);
    var rest := FromAnswer(Run(s, first), e, from, s.sent[from].at, late, limit);
    KeepsUpTrans(s, first, rest, e, from, Skipped(from), limit);
    evs := first + rest;
  }

  lemma SkipsNeverTwice(from: nat)
    ensures from !in Skipped(from) && NeverTwice(Skipped(from), from)
  {}

  lemma SkippedKeptUp(s: State, evs: seq<Event>, e: nat, from: nat, lost: set<nat>, limit: Deadline)
    requires LinkIs(s, e, Open) && from + 1 == |s.sent| && CanRun(Answered(s, e), evs)
    requires from !in lost && NeverTwice(lost, from) && KeepsUp(Answered(s, e), evs, e, from, lost, limit)
    ensures KeptUp(s, evs, e, lost, limit)
  {
    assert from == |s.sent| - 1;
  }

  /** How late to answer to be within the limit and yet too late. */
  function Late(limit: Deadline): (late: real)
    requires !FitsSlack(limit)
    ensures LateEnough(late, limit)
  {
    if limit.seconds - SLACK < 10.0 then (limit.seconds - SLACK) / 2.0 else 5.0
  }

  lemma SlowAnswers(s: State, e: nat, limit: Deadline) returns (evs: seq<Event>, lost: set<nat>)
    requires FullInv(s) && Live(s) && LinkIs(s, e, Open) && Alone(s, e) && !FitsSlack(limit)
    ensures KeptUp(s, evs, e, lost, limit) && !Alive(Run(Answered(s, e), evs))
  {
    FirstAnswer(s, e);
    var from := |s.sent| - 1;
    evs := SlowRun(Answered(s, e), e, from, Late(limit), limit);
    lost := Skipped(from);
    SkipsNeverTwice(from);
    SkippedKeptUp(s, evs, e, from, lost, limit);
  }

  /** Two keep-alives of one endpoint with k lost ones between them are (k + 1) * 30 seconds apart. */
  lemma ReceivedGap(s: State, i: nat, j: nat, lost: set<nat>)
    requires Reachable(s) && i < j < |s.sent| && s.sent[i].ep == s.sent[j].ep
    requires forall m | i < m < j :: m in lost
    ensures s.sent[j].at - s.sent[i].at == 30.0 * (j - i) as real
    ensures NeverTwice(lost, i) ==> s.sent[j].at - s.sent[i].at <= 60.0
  {
    ReachableFull(s);
    CadenceSpan(s.sent, i, j);
    assert NeverTwice(lost, i) && i + 2 < j ==> i + 1 !in lost || i + 2 !in lost;
  }
}
