/** BondHub.setup: requests flattened into one list, and the responses dealt back to their devices. */
module HubSetup {
  import opened Prelude
  import opened Entities

  datatype Request = Attrs(id: string) | Props(id: string) | State(id: string)

  /** The device holds id k and the responses to its own three requests. */
  ghost predicate Dealt(d: BondDevice, ids: seq<string>, k: nat, isGroup: bool, answer: (nat, Request) -> DeviceState)
    requires k < |ids|
    reads d
  {
    && d.id == ids[k] && d.isGroup == isGroup
    && d.attrs == answer(3 * k, Attrs(ids[k]))
    && d.props == answer(3 * k + 1, Props(ids[k]))
    && d.state == answer(3 * k + 2, State(ids[k]))
  }

  /** How many devices setup() reads: all, or the first maxDevices. */
  function Limit(count: nat, maxDevices: Option<int>): nat {
    if maxDevices.None? || maxDevices.value >= count then count
    else if maxDevices.value < 0 then 0
    else maxDevices.value
  }

  /** The three requests of each id, in order. */
  function Flatten(ids: seq<string>): seq<Request> {
    if ids == [] then []
    else Flatten(ids[..|ids| - 1]) + (var id := ids[|ids| - 1]; [Attrs(id), Props(id), State(id)])
  }

  lemma {:induction false} FlattenLength(ids: seq<string>)
    ensures |Flatten(ids)| == 3 * |ids|
  {
    if ids != [] { FlattenLength(ids[..|ids| - 1]); }
  }

  lemma {:induction false} FlattenAt(ids: seq<string>, k: nat)
    requires k < |ids|
    ensures |Flatten(ids)| == 3 * |ids|
    ensures Flatten(ids)[3 * k] == Attrs(ids[k]) && Flatten(ids)[3 * k + 1] == Props(ids[k])
    ensures Flatten(ids)[3 * k + 2] == State(ids[k])
  {
    var n := |ids| - 1;
    FlattenLength(ids[..n]);
    if k < n { FlattenAt(ids[..n], k); }
  }

  /** The responses are the answers to the requests of these ids, in order. */
  ghost predicate Answers(responses: seq<DeviceState>, ids: seq<string>, answer: (nat, Request) -> DeviceState) {
    |responses| == |Flatten(ids)| && forall i | 0 <= i < |responses| :: responses[i] == answer(i, Flatten(ids)[i])
  }

  lemma AnswersAt(responses: seq<DeviceState>, ids: seq<string>, answer: (nat, Request) -> DeviceState, k: nat)
    requires Answers(responses, ids, answer) && k < |ids|
    ensures 3 * k + 3 <= |responses|
    ensures responses[3 * k] == answer(3 * k, Attrs(ids[k]))
    ensures responses[3 * k + 1] == answer(3 * k + 1, Props(ids[k]))
    ensures responses[3 * k + 2] == answer(3 * k + 2, State(ids[k]))
  {
    FlattenAt(ids, k);
  }

  class BondHub {
    var devices: seq<BondDevice>
    var groups: seq<BondDevice>

    constructor ()
      ensures devices == [] && groups == []
    {
      devices, groups := [], [];
    }

    /** gather_with_limited_concurrency: one response per request, in the order of the requests. */
    static method Gather(tasks: seq<Request>, answer: (nat, Request) -> DeviceState)
      returns (responses: seq<DeviceState>)
      ensures |responses| == |tasks|
      ensures forall i | 0 <= i < |tasks| :: responses[i] == answer(i, tasks[i])
    {
      responses := seq(|tasks|, i requires 0 <= i < |tasks| => answer(i, tasks[i]));
    }

    /** Device k gets the responses to its own requests; exactly the first Limit ids are set up. */
    method SetupDevices(deviceIds: seq<string>, maxDevices: Option<int>, answer: (nat, Request) -> DeviceState)
      modifies this`devices
      ensures |devices| <= |deviceIds| && (maxDevices.None? ==> |devices| == |deviceIds|)
      ensures maxDevices.Some? ==> |devices| == 0 || |devices| <= maxDevices.value
      ensures |devices| < |deviceIds| ==> maxDevices.value <= |devices|
      ensures forall k | 0 <= k < |devices| :: fresh(devices[k]) && Dealt(devices[k], deviceIds, k, false, answer)
      ensures forall j, k | 0 <= j < k < |devices| :: devices[j] != devices[k]
    {
      devices := [];
      var setupIds, tasks := Requests(deviceIds, maxDevices);
      var responses := Gather(tasks, answer);
      var responseIdx := 0;
      for k := 0 to |setupIds|
        invariant responseIdx == 3 * k && |devices| == k
        invariant forall j | 0 <= j < k :: fresh(devices[j]) && Dealt(devices[j], deviceIds, j, false, answer)
        invariant forall i, j | 0 <= i < j < k :: devices[i] != devices[j]
      {
        var d := Deal(setupIds, k, responses, responseIdx, answer);
        devices := devices + [d];
        responseIdx := responseIdx + 3;
      }
    }

    static method Deal(ids: seq<string>, k: nat, responses: seq<DeviceState>, idx: nat,
                       ghost answer: (nat, Request) -> DeviceState)
      returns (d: BondDevice)
      requires Answers(responses, ids, answer) && k < |ids| && idx == 3 * k
      ensures fresh(d) && Dealt(d, ids, k, false, answer)
    {
      AnswersAt(responses, ids, answer, k);
      d := new BondDevice(ids[k], false, responses[idx], responses[idx + 1], responses[idx + 2]);
    }

    static method Requests(deviceIds: seq<string>, maxDevices: Option<int>)
      returns (setupIds: seq<string>, tasks: seq<Request>)
      ensures setupIds == deviceIds[..Limit(|deviceIds|, maxDevices)] && tasks == Flatten(setupIds)
    {
      setupIds, tasks := [], [];
      for idx := 0 to |deviceIds|
        invariant idx <= Limit(|deviceIds|, maxDevices)
        invariant setupIds == deviceIds[..idx] && tasks == Flatten(setupIds)
      {
        if maxDevices.Some? && idx >= maxDevices.value { break; }
        var id := deviceIds[idx];
        setupIds := setupIds + [id];
        assert setupIds[..idx] == deviceIds[..idx];
        tasks := tasks + [Attrs(id), Props(id), State(id)];
      }
    }

    /** The same by slices of three, for every group id the bridge lists. */
    method SetupGroups(groupIds: seq<string>, answer: (nat, Request) -> DeviceState)
      modifies this`groups
      ensures |groups| == |groupIds|
      ensures forall k | 0 <= k < |groups| :: fresh(groups[k]) && Dealt(groups[k], groupIds, k, true, answer)
      ensures forall j, k | 0 <= j < k < |groups| :: groups[j] != groups[k]
    {
      var responses := Gather(Flatten(groupIds), answer);
      var built: seq<BondDevice> := [];
      for k := 0 to |groupIds|
        invariant |built| == k
        invariant forall j | 0 <= j < k :: fresh(built[j]) && Dealt(built[j], groupIds, j, true, answer)
        invariant forall i, j | 0 <= i < j < k :: built[i] != built[j]
      {
        AnswersAt(responses, groupIds, answer, k);
        var slice := responses[k * 3..k * 3 + 3];
        var g := new BondDevice(groupIds[k], true, slice[0], slice[1], slice[2]);
        built := built + [g];
      }
      groups := built;
    }

    /** Devices, then groups. */
    function EntitySources(): (sources: seq<BondDevice>)
      reads this
      ensures |sources| == |devices| + |groups|
      ensures forall i | 0 <= i < |devices| :: sources[i] == devices[i]
      ensures forall i | 0 <= i < |groups| :: sources[|devices| + i] == groups[i]
    {
      devices + groups
    }
  }
}
