/** The fallback sweep over every device, and the telemetry poll with its optional endpoints. */
module Coordinators {
  import opened Prelude
  import opened Entities
  import Subs = Subscriptions

  // ----- BondFallbackCoordinator

  const INTERVAL_ALIVE: int := 300
  const INTERVAL_DEAD: int := 30

  datatype Sweep = Payload(data: map<string, DeviceState>) | UpdateFailed | Raised

  /** The results looked at before an unexpected error ends the sweep. */
  function BeforeCrash(results: seq<Fetch>): nat {
    if results == [] || results[0].Crash? then 0 else 1 + BeforeCrash(results[1..])
  }

  lemma {:induction false} BeforeCrashIsFirst(results: seq<Fetch>)
    ensures BeforeCrash(results) <= |results|
    ensures forall i | 0 <= i < BeforeCrash(results) :: !results[i].Crash?
    ensures BeforeCrash(results) < |results| ==> results[BeforeCrash(results)].Crash?
  {
    if results != [] && !results[0].Crash? {
      BeforeCrashIsFirst(results[1..]);
      forall i | 0 <= i < BeforeCrash(results) ensures !results[i].Crash? {
        assert i > 0 ==> results[i] == results[1..][i - 1];
      }
    }
  }

  /** The payload after the first n results. */
  function PayloadOf(ids: seq<string>, results: seq<Fetch>, n: nat): map<string, DeviceState>
    requires n <= |ids| == |results|
  {
    if n == 0 then map[]
    else
      var before := PayloadOf(ids, results, n - 1);
      if results[n - 1].Answer? then before[ids[n - 1] := results[n - 1].state] else before
  }

  predicate AnsweredBefore(ids: seq<string>, results: seq<Fetch>, n: nat, id: string)
    requires n <= |ids| == |results|
  {
    exists i | 0 <= i < n :: results[i].Answer? && ids[i] == id
  }

  /** The keys are the ids that answered, and an id's value is the last answer given for it. */
  lemma {:induction false} PayloadLastWins(ids: seq<string>, results: seq<Fetch>, n: nat)
    requires n <= |ids| == |results|
    ensures forall id :: id in PayloadOf(ids, results, n) <==> AnsweredBefore(ids, results, n, id)
    ensures forall i | 0 <= i < n && results[i].Answer?
                       && (forall j | i < j < n && ids[j] == ids[i] :: !results[j].Answer?) ::
              ids[i] in PayloadOf(ids, results, n) && PayloadOf(ids, results, n)[ids[i]] == results[i].state
  {
    if n > 0 {
      PayloadLastWins(ids, results, n - 1);
      forall id ensures AnsweredBefore(ids, results, n, id) <==>
                          AnsweredBefore(ids, results, n - 1, id) || (results[n - 1].Answer? && ids[n - 1] == id)
      {}
    }
  }

  predicate Distinct(ids: seq<string>) { forall i, j | 0 <= i < j < |ids| :: ids[i] != ids[j] }

  /** Each source that answered finds its own answer in the payload. */
  predicate Faithful(ids: seq<string>, results: seq<Fetch>)
    requires |ids| == |results|
  {
    forall i | 0 <= i < |ids| && results[i].Answer? ::
      ids[i] in PayloadOf(ids, results, |ids|) && PayloadOf(ids, results, |ids|)[ids[i]] == results[i].state
  }

  /** Sources that share an id gave the same answer. */
  predicate SharersAgree(ids: seq<string>, results: seq<Fetch>)
    requires |ids| == |results|
  {
    forall i, j | 0 <= i < j < |ids| && ids[i] == ids[j] && results[i].Answer? && results[j].Answer? ::
      results[i].state == results[j].state
  }

  lemma {:induction false} LastAnswer(ids: seq<string>, results: seq<Fetch>, n: nat, i: nat) returns (last: nat)
    requires i < n <= |ids| == |results| && results[i].Answer?
    ensures i <= last < n && ids[last] == ids[i] && results[last].Answer?
    ensures forall j | last < j < n && ids[j] == ids[last] :: !results[j].Answer?
    decreases n
  {
    if ids[n - 1] == ids[i] && results[n - 1].Answer? {
      last := n - 1;
    } else {
      last := LastAnswer(ids, results, n - 1, i);
    }
  }

  /** A device and a group may share an id: the payload serves both exactly when their answers agree. */
  lemma FaithfulIffSharersAgree(ids: seq<string>, results: seq<Fetch>)
    requires |ids| == |results|
    ensures Faithful(ids, results) <==> SharersAgree(ids, results)
  {
    PayloadLastWins(ids, results, |ids|);
    forall i: nat | i < |ids| && results[i].Answer?
      ensures SharersAgree(ids, results) ==> PayloadOf(ids, results, |ids|)[ids[i]] == results[i].state
    {
      var last := LastAnswer(ids, results, |ids|, i);
    }
  }

  class BondFallbackCoordinator {
    const devices: seq<BondDevice>  // entity_sources: devices, then groups
    const subs: Subs.BPUPSubscriptions
    var updateInterval: int

    constructor (devices: seq<BondDevice>, subs: Subs.BPUPSubscriptions)
      ensures this.devices == devices && this.subs == subs && updateInterval == 30
    {
      this.devices, this.subs, updateInterval := devices, subs, INTERVAL_DEAD;
    }

    function Ids(): seq<string> { seq(|devices|, i requires 0 <= i < |devices| => devices[i].id) }

    /**
      One sweep, given how each device's fetch ended. Every answer before an unexpected error is
      stored in its device, and nothing else changes.
     */
    method UpdateData(results: seq<Fetch>, now: real) returns (sweep: Sweep)
      requires |results| == |devices| && forall i, j | 0 <= i < j < |devices| :: devices[i] != devices[j]
      modifies this`updateInterval, (set d | d in devices)`state
      ensures forall i | 0 <= i < |devices| ::
                devices[i].state ==
                  if i < BeforeCrash(results) && results[i].Answer? then results[i].state else old(devices[i].state)
      ensures sweep.Raised? <==> BeforeCrash(results) < |results|
      ensures sweep.UpdateFailed? <==> results != [] && forall r | r in results :: r.Unreachable?
      ensures sweep.Payload? ==> sweep.data == PayloadOf(Ids(), results, |results|)
      ensures updateInterval == if !sweep.Payload? then old(updateInterval)
                                else if now - subs.lastMessageTime < 70.0 then 300 else 30
    {
      BeforeCrashIsFirst(results);
      var data: map<string, DeviceState> := map[];
      var errors := 0;
      for i := 0 to |devices|
        invariant i <= BeforeCrash(results)
        invariant 0 <= errors <= i && (errors == i <==> forall j | 0 <= j < i :: results[j].Unreachable?)
        invariant data == PayloadOf(Ids(), results, i)
        invariant forall j | 0 <= j < |devices| ::
            devices[j].state == if j < i && results[j].Answer? then results[j].state else old(devices[j].state)
        invariant updateInterval == old(updateInterval)
      {
        match results[i] {
          case Crash =>
            assert results[i] in results;
            return Raised;
          case Unreachable => errors := errors + 1;
          case Answer(state) =>
            devices[i].state := state;
            data := data[devices[i].id := state];
        }
      }
      if |devices| > 0 && errors == |devices| {
        assert forall r | r in results :: r.Unreachable?;
        return UpdateFailed;
      }
      AdjustInterval(now);
      return Payload(data);
    }

    method AdjustInterval(now: real)
      modifies this`updateInterval
      ensures updateInterval == if now - subs.lastMessageTime < 70.0 then 300 else 30
    {
      var interval := if now - subs.lastMessageTime < 70.0 then INTERVAL_ALIVE else INTERVAL_DEAD;
      if updateInterval != interval {
        updateInterval := interval;
      }
    }
  }

  /** With distinct ids a sweep's payload maps each source that answered to its own result. */
  lemma DistinctIdsFaithful(ids: seq<string>, results: seq<Fetch>)
    requires |ids| == |results| && Distinct(ids)
    ensures Faithful(ids, results)
    ensures PayloadOf(ids, results, |ids|).Keys == set i | 0 <= i < |ids| && results[i].Answer? :: ids[i]
  {
    FaithfulIffSharersAgree(ids, results);
    PayloadLastWins(ids, results, |ids|);
  }

  /** The entity learned that fetching its state failed. */
  ghost predicate Lapsed(e: BondEntity, before: Shown)
    reads e
  {
    e.Valid() && Fits(e.kind, before.view) && e.Now() == Shown(false, before.view)
  }

  /**
    A payload is delivered to every entity: one whose source is in it shows that state, one whose
    source failed turns unavailable and keeps its view.
   */
  method Deliver(entities: seq<BondEntity>, data: map<string, DeviceState>)
    requires forall e | e in entities :: e.Valid()
    requires forall i, j | 0 <= i < j < |entities| :: entities[i] != entities[j]
    modifies (set e | e in entities)`available, (set e | e in entities)`view
    modifies (set e | e in entities && e.device.id in data :: e.device)`state
    ensures forall e | e in entities ::
              if e.device.id in data
              then Subs.Shows(e, old(e.Now()), data[e.device.id])
              else Lapsed(e, old(e.Now())) && e.device.state == old(e.device.state)
  {
    for i := 0 to |entities|
      invariant forall e | e in entities[..i] ::
          if e.device.id in data then Subs.Shows(e, old(e.Now()), data[e.device.id])
          else Lapsed(e, old(e.Now()))
      invariant forall e | e in entities && e.device.id !in data :: e.device.state == old(e.device.state)
      invariant forall e | e in entities[i..] :: e.Valid() && e.Now() == old(e.Now())
    {
      var e := entities[i];
      assert entities[..i + 1] == entities[..i] + [e] && entities[i..] == [e] + entities[i + 1..];
      e.CoordinatorUpdate(data);
    }
    assert entities[..|entities|] == entities;
  }

  // ----- BondTelemetryCoordinator

  /** How one request of a telemetry poll ends; every error but a 404 aborts the poll. */
  datatype Reply = Ok(body: DeviceState) | NotFound | Error

  type Telemetry = map<string, DeviceState>

  /** A poll under way: the endpoints still supported, the payload unless aborted, and what was asked. */
  datatype Polled = Polled(optional: seq<string>, payload: Option<Telemetry>, asked: seq<string>, notFound: nat)

  function AskNext(key: string, replies: string -> Reply, soFar: Polled): Polled
    requires soFar.payload.Some?
  {
    var asked := soFar.(asked := soFar.asked + [key]);
    match replies(key)
    case Ok(body) => asked.(payload := Some(soFar.payload.value[key := body]))
    case NotFound => asked.(optional := Subs.Without(soFar.optional, key), notFound := soFar.notFound + 1)
    case Error => asked.(payload := None)
  }

  /** The loop over the optional endpoints still to be asked, in order. */
  function AskRest(keys: seq<string>, replies: string -> Reply, soFar: Polled): Polled
    decreases |keys|
  {
    if keys == [] || soFar.payload.None? then soFar
    else AskRest(keys[1..], replies, AskNext(keys[0], replies, soFar))
  }

  /** The requests every poll makes; a 404 aborts these like any other error. */
  function FixedKeys(isBridge: bool): seq<string> {
    ["version", "wifi"] + if isBridge then ["bridge"] else []
  }

  function FixedPart(keys: seq<string>, replies: string -> Reply): Option<Telemetry> {
    if keys == [] then Some(map[])
    else
      var n := |keys| - 1;
      var before := FixedPart(keys[..n], replies);
      if before.Some? && replies(keys[n]).Ok? then Some(before.value[keys[n] := replies(keys[n]).body]) else None
  }

  function Poll(optional: seq<string>, isBridge: bool, replies: string -> Reply): Polled {
    AskRest(optional, replies, Polled(optional, FixedPart(FixedKeys(isBridge), replies), [], 0))
  }

  const FIXED_NAMES: set<string> := {"version", "wifi", "bridge"}

  predicate Optional(keys: seq<string>) { Distinct(keys) && forall k | k in keys :: k !in FIXED_NAMES }

  lemma {:induction false} FixedPartExact(keys: seq<string>, replies: string -> Reply)
    ensures FixedPart(keys, replies).Some? <==> forall k | k in keys :: replies(k).Ok?
    ensures FixedPart(keys, replies).Some? ==> OwnBodies(FixedPart(keys, replies).value, replies)
    ensures FixedPart(keys, replies).Some? ==> forall k :: k in FixedPart(keys, replies).value <==> k in keys
  {
    if keys != [] {
      var n := |keys| - 1;
      FixedPartExact(keys[..n], replies);
      assert keys == keys[..n] + [keys[n]];
    }
  }

  /** Every entry of a payload is the body its own endpoint answered with. */
  predicate OwnBodies(payload: Telemetry, replies: string -> Reply) {
    forall k | k in payload :: replies(k) == Ok(payload[k])
  }

  /** What holds of a poll that has asked the endpoints done and has those of rest to go. */
  ghost predicate PollSound(all: seq<string>, done: seq<string>, rest: seq<string>, fixed: seq<string>,
                            replies: string -> Reply, p: Polled) {
    && all == done + rest && Optional(all)
    && (p.payload.Some? ==> p.asked == done)
    && p.asked <= all
    && Distinct(p.optional) && p.notFound + |p.optional| == |all|
    && (forall k :: k in p.optional <==> k in all && !(k in p.asked && replies(k).NotFound?))
    && (p.payload.Some? <==> AllAnswer(fixed, done, replies))
    && (p.payload.Some? ==> OwnBodies(p.payload.value, replies))
    && (p.payload.Some? ==> forall k :: k in p.payload.value <==> k in fixed || (k in done && replies(k).Ok?))
  }

  /** The fixed requests all succeed, and the optional ones succeed or answer 404. */
  predicate AllAnswer(fixed: seq<string>, optional: seq<string>, replies: string -> Reply) {
    (forall k | k in fixed :: replies(k).Ok?) && forall k | k in optional :: !replies(k).Error?
  }

  lemma {:induction false} WithoutKeepsDistinct(keys: seq<string>, key: string)
    requires Distinct(keys)
    ensures Distinct(Subs.Without(keys, key))
    ensures forall k :: k in Subs.Without(keys, key) <==> k in keys && k != key
    ensures |Subs.Without(keys, key)| == if key in keys then |keys| - 1 else |keys|
  {
    if keys != [] {
      assert keys[0] !in keys[1..];
      WithoutKeepsDistinct(keys[1..], key);
      assert forall k :: k in keys <==> k == keys[0] || k in keys[1..];
    }
  }

  lemma AskNextSound(all: seq<string>, done: seq<string>, rest: seq<string>, fixed: seq<string>,
                     replies: string -> Reply, p: Polled)
    requires rest != [] && p.payload.Some? && PollSound(all, done, rest, fixed, replies, p)
    ensures PollSound(all, done + [rest[0]], rest[1..], fixed, replies, AskNext(rest[0], replies, p))
  {
    var key := rest[0];
    assert key == all[|done|] && key !in done;
    WithoutKeepsDistinct(p.optional, key);
    assert key in done + [key] && forall k | k in done :: k in done + [key];
  }

  /** ...until they are all done or one of those done has aborted the poll. */
  lemma {:induction false} AskRestSound(all: seq<string>, done: seq<string>, rest: seq<string>, fixed: seq<string>,
                                        replies: string -> Reply, p: Polled)
    returns (d: seq<string>, t: seq<string>)
    requires PollSound(all, done, rest, fixed, replies, p)
    ensures PollSound(all, d, t, fixed, replies, AskRest(rest, replies, p))
    ensures AskRest(rest, replies, p).payload.Some? ==> t == []
    decreases |rest|
  {
    if rest != [] && p.payload.Some? {
      AskNextSound(all, done, rest, fixed, replies, p);
      d, t := AskRestSound(all, done + [rest[0]], rest[1..], fixed, replies, AskNext(rest[0], replies, p));
    } else {
      d, t := done, rest;
    }
  }

  lemma FixedSpelled(isBridge: bool)
    ensures forall k :: k in FixedKeys(isBridge) <==> k == "version" || k == "wifi" || (isBridge && k == "bridge")
  {}

  /**
    One poll. It succeeds exactly when every request does, 404s of optional endpoints aside, and its
    payload then holds each endpoint's own answer: the fixed ones' and those of exactly the endpoints
    still supported. Succeed or fail, only supported endpoints were asked, in order, and exactly those
    that answered 404 are gone.
   */
  lemma PollExact(optional: seq<string>, isBridge: bool, replies: string -> Reply)
    requires Optional(optional)
    ensures var r := Poll(optional, isBridge, replies);
            && Optional(r.optional) && r.asked <= optional
            && r.notFound + |r.optional| == |optional|
            && (forall k :: k in r.optional <==> k in optional && !(k in r.asked && replies(k).NotFound?))
            && (r.payload.Some? <==>
                  && replies("version").Ok? && replies("wifi").Ok? && (isBridge ==> replies("bridge").Ok?)
                  && forall k | k in optional :: !replies(k).Error?)
            && (r.payload.Some? ==> r.asked == optional && OwnBodies(r.payload.value, replies))
            && (r.payload.Some? ==>
                  forall k :: k in r.payload.value <==>
                                k == "version" || k == "wifi" || (isBridge && k == "bridge") || k in r.optional)
  {
    FixedSpelled(isBridge);
    var fixed := FixedKeys(isBridge);
    var start := Polled(optional, FixedPart(fixed, replies), [], 0);
    FixedPartExact(fixed, replies);
    assert PollSound(optional, [], optional, fixed, replies, start);
    var d, t := AskRestSound(optional, [], optional, fixed, replies, start);
    assert forall k | k in d :: k in optional;
    assert AskRest(optional, replies, start).payload.Some? ==> d == optional;
  }

  // ----- any run of polls

  function Polls(optional: seq<string>, isBridge: bool, run: seq<string -> Reply>): seq<Polled>
    decreases |run|
  {
    if run == [] then []
    else var first := Poll(optional, isBridge, run[0]); [first] + Polls(first.optional, isBridge, run[1..])
  }

  function NotFounds(polls: seq<Polled>): nat {
    if polls == [] then 0 else polls[0].notFound + NotFounds(polls[1..])
  }

  /** The endpoints supported when poll i of a run starts. */
  function SupportAt(optional: seq<string>, isBridge: bool, run: seq<string -> Reply>, i: nat): seq<string>
    requires i <= |run|
    decreases |run|
  {
    if i == 0 then optional else SupportAt(Poll(optional, isBridge, run[0]).optional, isBridge, run[1..], i - 1)
  }

  /** Support only shrinks. */
  lemma {:induction false} SupportShrinks(optional: seq<string>, isBridge: bool, run: seq<string -> Reply>,
                                          i: nat, j: nat)
    requires Optional(optional) && i <= j <= |run|
    ensures Optional(SupportAt(optional, isBridge, run, i))
    ensures forall k | k in SupportAt(optional, isBridge, run, j) :: k in SupportAt(optional, isBridge, run, i)
    decreases |run|
  {
    if j > 0 {
      PollExact(optional, isBridge, run[0]);
      SupportShrinks(Poll(optional, isBridge, run[0]).optional, isBridge, run[1..], if i == 0 then 0 else i - 1, j - 1);
    }
  }

  lemma {:induction false} PollAt(optional: seq<string>, isBridge: bool, run: seq<string -> Reply>, i: nat)
    requires i < |run|
    ensures |Polls(optional, isBridge, run)| == |run|
    ensures Polls(optional, isBridge, run)[i] == Poll(SupportAt(optional, isBridge, run, i), isBridge, run[i])
    ensures SupportAt(optional, isBridge, run, i + 1) == Polls(optional, isBridge, run)[i].optional
    decreases |run|
  {
    var rest := Poll(optional, isBridge, run[0]).optional;
    if i > 0 {
      PollAt(rest, isBridge, run[1..], i - 1);
    } else if |run| > 1 {
      PollAt(rest, isBridge, run[1..], 0);
    }
  }

  /** An endpoint that has been dropped is never asked again: what poll j asks, poll i before it kept. */
  lemma DroppedNeverAsked(optional: seq<string>, isBridge: bool, run: seq<string -> Reply>, i: nat, j: nat, key: string)
    requires Optional(optional) && i < j < |run|
    ensures |Polls(optional, isBridge, run)| == |run|
    ensures key in Polls(optional, isBridge, run)[j].asked ==> key in Polls(optional, isBridge, run)[i].optional
  {
    PollAt(optional, isBridge, run, i);
    PollAt(optional, isBridge, run, j);
    SupportShrinks(optional, isBridge, run, i + 1, j);
    SupportShrinks(optional, isBridge, run, j, j);
    PollExact(SupportAt(optional, isBridge, run, j), isBridge, run[j]);
  }

  /** The 404s met over a run are as many as the endpoints lost: never more than there were. */
  lemma {:induction false} NotFoundsAreDrops(optional: seq<string>, isBridge: bool, run: seq<string -> Reply>)
    requires Optional(optional)
    ensures NotFounds(Polls(optional, isBridge, run)) + |SupportAt(optional, isBridge, run, |run|)| == |optional|
    decreases |run|
  {
    if run != [] {
      var first := Poll(optional, isBridge, run[0]);
      PollExact(optional, isBridge, run[0]);
      NotFoundsAreDrops(first.optional, isBridge, run[1..]);
      assert Polls(optional, isBridge, run)[1..] == Polls(first.optional, isBridge, run[1..]);
    }
  }

  class BondTelemetryCoordinator {
    var optional: seq<string>  // the keys of _optional, in order
    const isBridge: bool

    constructor (isBridge: bool)
      ensures this.isBridge == isBridge && optional == ["faults", "power", "indicate", "bpup"] && Optional(optional)
    {
      this.isBridge := isBridge;
      optional := ["faults", "power", "indicate", "bpup"];
    }

    predicate Supports(key: string)
      reads this
    {
      key in optional
    }

    /** One poll; None when it raises. */
    method UpdateData(replies: string -> Reply) returns (payload: Option<Telemetry>)
      modifies this`optional
      ensures optional == Poll(old(optional), isBridge, replies).optional
      ensures payload == Poll(old(optional), isBridge, replies).payload
    {
      var data: Telemetry := map[];
      var fixed := FixedKeys(isBridge);
      for i := 0 to |fixed|
        invariant FixedPart(fixed[..i], replies) == Some(data)
        invariant optional == old(optional)
      {
        assert fixed[..i + 1][..i] == fixed[..i];
        match replies(fixed[i]) {
          case Ok(body) => data := data[fixed[i] := body];
          case _ =>
            FixedPartStops(fixed, replies, i);
            return None;
        }
      }
      assert fixed[..|fixed|] == fixed;
      var keys := optional;
      ghost var done := Polled(optional, Some(data), [], 0);
      for i := 0 to |keys|
        invariant done.optional == optional && done.payload == Some(data)
        invariant AskRest(keys[i..], replies, done) == Poll(old(optional), isBridge, replies)
      {
        assert keys[i..][1..] == keys[i + 1..];
        done := AskNext(keys[i], replies, done);
        match replies(keys[i]) {
          case Ok(body) => data := data[keys[i] := body];
          case NotFound => optional := Subs.Without(optional, keys[i]);
          case Error => return None;
        }
      }
      return Some(data);
    }
  }

  lemma {:induction false} FixedPartStops(keys: seq<string>, replies: string -> Reply, i: nat)
    requires i < |keys| && !replies(keys[i]).Ok?
    ensures FixedPart(keys, replies) == None
    decreases |keys|
  {
    var n := |keys| - 1;
    if i < n { FixedPartStops(keys[..n], replies, i); }
  }
}
