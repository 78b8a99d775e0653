/** Devices whose state several entities share, and the entities' availability and views. */
module Entities {
  import opened Prelude
  import Scaling
  import opened Topics

  /** A JSON state: the variables that are present and not null. */
  type DeviceState = map<string, int>

  function Get(state: DeviceState, key: string): Option<int> {
    if key in state then Some(state[key]) else None
  }

  function GetOr(state: DeviceState, key: string, default: int): int {
    if key in state then state[key] else default
  }

  // ----- the views _apply_state() derives

  datatype Kind = Cover | LayerCover(stateKey: string) | Light | Fireplace

  datatype View =
    | CoverView(closed: Option<bool>, position: Option<int>, tilt: Option<int>)
    | LightView(on: bool, brightness: Option<int>, kelvin: Option<int>)

  /** The attributes before the first _apply_state(). */
  function Blank(kind: Kind): View {
    match kind
    case Cover | LayerCover(_) => CoverView(None, None, None)
    case Light | Fireplace => LightView(false, None, None)
  }

  predicate Fits(kind: Kind, view: View) { view.CoverView? <==> Blank(kind).CoverView? }

  /** A state variable that is missing, null or zero leaves the attribute unset. */
  function NonZero(value: Option<int>, convert: int -> int): Option<int> {
    if value.Some? && value.value != 0 then Some(convert(value.value)) else None
  }

  function Tilt(props: DeviceState, degrees: int): int {
    var (lo, hi) := Scaling.TiltRange(GetOr(props, "min_tilt", 0), GetOr(props, "max_tilt", 90));
    Scaling.TiltToPercent(degrees, lo, hi)
  }

  /** A shade's position and tilt outlive states that do not mention them; its rails' do not. */
  function Apply(kind: Kind, props: DeviceState, view: View, state: DeviceState): (shown: View)
    requires Fits(kind, view)
    ensures Fits(kind, shown)
  {
    match kind
    case Cover =>
      CoverView(
        if "open" in state then Some(state["open"] == 0) else None,
        if "position" in state then Some(Scaling.BondToHass(state["position"])) else view.position,
        if "tilt_position" in state then Some(Tilt(props, state["tilt_position"])) else view.tilt)
    case LayerCover(key) =>
      if key !in state then CoverView(None, None, view.tilt)
      else CoverView(Some(state[key] == 100), Some(Scaling.BondToHass(state[key])), view.tilt)
    case Light =>
      LightView(GetOr(state, "light", 0) == 1,
                NonZero(Get(state, "brightness"), Scaling.PercentTo255),
                NonZero(Get(state, "color_temp"), Scaling.ToHundreds))
    case Fireplace =>
      LightView(GetOr(state, "power", 0) == 1, NonZero(Get(state, "flame"), Scaling.PercentTo255), view.kelvin)
  }

  /** Being handed the same state twice shows what being handed it once does. */
  lemma ApplyTwice(kind: Kind, props: DeviceState, view: View, state: DeviceState)
    requires Fits(kind, view)
    ensures Apply(kind, props, Apply(kind, props, view, state), state) == Apply(kind, props, view, state)
  {}

  // ----- what a view says about the state it was derived from

  /** A light or fireplace is on exactly when its variable says 1, and its level is the state's, recoverable exactly. */
  lemma LightShowsState(kind: Kind, props: DeviceState, view: View, state: DeviceState)
    requires (kind.Light? || kind.Fireplace?) && Fits(kind, view)
    ensures var shown := Apply(kind, props, view, state);
            var level := Get(state, if kind.Light? then "brightness" else "flame");
            && (shown.on <==> Get(state, if kind.Light? then "light" else "power") == Some(1))
            && (shown.brightness.Some? <==> level.Some? && level.value != 0)
            && (shown.brightness.Some? ==> Scaling.PercentFrom255(shown.brightness.value) == level.value)
  {
    var level := Get(state, if kind.Light? then "brightness" else "flame");
    if level.Some? { Scaling.PercentExact(level.value); }
  }

  /** A light's colour temperature is shown in hundreds, at most 50 away from the state's. */
  lemma LightShowsKelvin(props: DeviceState, view: View, state: DeviceState)
    requires Fits(Light, view)
    ensures var shown := Apply(Light, props, view, state).kelvin;
            var kelvin := Get(state, "color_temp");
            && (shown.Some? <==> kelvin.Some? && kelvin.value != 0)
            && (shown.Some? ==> shown.value % 100 == 0 && Scaling.Abs(shown.value - kelvin.value) <= 50)
  {
    if "color_temp" in state { Scaling.ToHundredsStable(state["color_temp"]); }
  }

  /** A rail or layer is shown closed exactly when it is shown at position 0, and unknown when the state omits it. */
  lemma RailShowsState(key: string, props: DeviceState, view: View, state: DeviceState)
    requires Fits(LayerCover(key), view)
    ensures var shown := Apply(LayerCover(key), props, view, state);
            && (shown.closed == Some(true) <==> shown.position == Some(0))
            && (shown.closed.Some? <==> shown.position.Some?) && (shown.position.Some? <==> key in state)
            && (key in state && state[key] <= 100 ==> Scaling.HassToBond(shown.position.value) == state[key])
  {
    if key in state { Scaling.PositionRoundTrip(state[key]); }
  }

  /** A shade's shown position and tilt convert back to the ones its state names. */
  lemma CoverShowsState(props: DeviceState, view: View, state: DeviceState)
    requires Fits(Cover, view)
    ensures var shown := Apply(Cover, props, view, state);
            var (lo, hi) := Scaling.TiltRange(GetOr(props, "min_tilt", 0), GetOr(props, "max_tilt", 90));
            && (shown.closed == Some(true) <==> Get(state, "open") == Some(0))
            && (shown.closed.None? <==> "open" !in state)
            && ("position" in state && state["position"] <= 100 ==>
                  shown.position.Some? && Scaling.HassToBond(shown.position.value) == state["position"])
            && ("tilt_position" in state && Scaling.Abs(hi - lo) <= 100 ==>
                  shown.tilt.Some? && Scaling.TiltToDegrees(shown.tilt.value, lo, hi) == state["tilt_position"])
  {
    var (lo, hi) := Scaling.TiltRange(GetOr(props, "min_tilt", 0), GetOr(props, "max_tilt", 90));
    if "position" in state { Scaling.PositionRoundTrip(state["position"]); }
    if "tilt_position" in state && Scaling.Abs(hi - lo) <= 100 {
      Scaling.TiltDegreesExact(state["tilt_position"], lo, hi);
    }
  }

  // ----- an entity over its history

  /** An event that reaches an entity: it carries a state, or says that fetching one failed. */
  datatype Reach = Carried(state: DeviceState) | Missed

  datatype Shown = Shown(available: bool, view: View)

  function Step(kind: Kind, props: DeviceState, shown: Shown, reach: Reach): (after: Shown)
    requires Fits(kind, shown.view)
    ensures Fits(kind, after.view)
  {
    match reach
    case Carried(state) => Shown(true, Apply(kind, props, shown.view, state))
    case Missed => shown.(available := false)
  }

  function After(kind: Kind, props: DeviceState, shown: Shown, history: seq<Reach>): (after: Shown)
    requires Fits(kind, shown.view)
    ensures Fits(kind, after.view)
    decreases |history|
  {
    if history == [] then shown else After(kind, props, Step(kind, props, shown, history[0]), history[1..])
  }

  /** Available exactly when the last event to reach the entity carried a state. */
  lemma {:induction false} AvailableIsLast(kind: Kind, props: DeviceState, shown: Shown, history: seq<Reach>)
    requires Fits(kind, shown.view) && history != []
    ensures After(kind, props, shown, history).available == history[|history| - 1].Carried?
    decreases |history|
  {
    if |history| > 1 {
      AvailableIsLast(kind, props, Step(kind, props, shown, history[0]), history[1..]);
    }
  }

  /** The last value a state variable took in a history, whatever came between. */
  function LastKnown(history: seq<Reach>, key: string): Option<int> {
    if history == [] then None
    else
      var last := history[|history| - 1];
      if last.Carried? && key in last.state then Some(last.state[key])
      else LastKnown(history[..|history| - 1], key)
  }

  function Converted(value: Option<int>, convert: int -> int, otherwise: Option<int>): Option<int> {
    if value.Some? then Some(convert(value.value)) else otherwise
  }

  lemma {:induction false} LastKnownOfRest(history: seq<Reach>, key: string)
    requires history != []
    ensures LastKnown(history, key) ==
              if LastKnown(history[1..], key).Some? then LastKnown(history[1..], key) else LastKnown(history[..1], key)
    decreases |history|
  {
    var n := |history| - 1;
    if n > 0 {
      var front := history[..n];
      assert front[1..] == history[1..][..n - 1] && front[..1] == history[..1];
      LastKnownOfRest(front, key);
    }
  }

  /** A shade shows the last position, and the last tilt, of its whole history. */
  lemma {:induction false} CoverShowsLastKnown(props: DeviceState, shown: Shown, history: seq<Reach>)
    requires shown.view.CoverView?
    ensures var view := After(Cover, props, shown, history).view;
            && view.position == Converted(LastKnown(history, "position"), Scaling.BondToHass, shown.view.position)
            && view.tilt == Converted(LastKnown(history, "tilt_position"), d => Tilt(props, d), shown.view.tilt)
    decreases |history|
  {
    if history != [] {
      CoverShowsLastKnown(props, Step(Cover, props, shown, history[0]), history[1..]);
      LastKnownOfRest(history, "position");
      LastKnownOfRest(history, "tilt_position");
      assert history[..1][..0] == [];
    }
  }

  // ----- the objects

  class BondDevice {
    const id: string
    const isGroup: bool
    const attrs: DeviceState
    const props: DeviceState
    var state: DeviceState

    constructor (id: string, isGroup: bool, attrs: DeviceState, props: DeviceState, state: DeviceState)
      ensures this.id == id && this.isGroup == isGroup
      ensures this.attrs == attrs && this.props == props && this.state == state
    {
      this.id, this.isGroup := id, isGroup;
      this.attrs, this.props, this.state := attrs, props, state;
    }

    function Topic(): string {
      TopicOf(isGroup, id)
    }
  }

  /** A pushed frame: status "s", topic "t", body "b". */
  datatype Frame = Frame(status: Option<int>, topic: Option<string>, body: Option<DeviceState>)

  /** How a request for one device's state ends. */
  datatype Fetch = Answer(state: DeviceState) | Unreachable | Crash

  class BondEntity {
    const device: BondDevice
    const kind: Kind
    var available: bool
    var view: View

    ghost predicate Valid()
      reads this
    {
      Fits(kind, view)
    }

    ghost function Now(): Shown
      reads this
    {
      Shown(available, view)
    }

    ghost function Then(shown: Shown, reach: Reach): Shown
      requires Fits(kind, shown.view)
    {
      Step(kind, device.props, shown, reach)
    }

    /** The view says what the device's present state says. */
    ghost predicate Coherent()
      reads this, device
      requires Valid()
    {
      view == Apply(kind, device.props, view, device.state)
    }

    constructor (device: BondDevice, kind: Kind)
      ensures this.device == device && this.kind == kind && Valid()
      ensures Now() == Shown(true, Apply(kind, device.props, Blank(kind), device.state)) && Coherent()
      ensures kind.Cover? ==>
                && (view.position.Some? <==> "position" in device.state)
                && (view.tilt.Some? <==> "tilt_position" in device.state)
      ensures kind.LayerCover? ==> view.tilt == None
      ensures kind.Fireplace? ==> view.kelvin == None
    {
      this.device, this.kind := device, kind;
      available := true;
      view := Apply(kind, device.props, Blank(kind), device.state);
      ApplyTwice(kind, device.props, Blank(kind), device.state);
    }

    method ApplyState()
      requires Valid()
      modifies this`view
      ensures Valid() && view == Apply(kind, device.props, old(view), device.state)
    {
      view := Apply(kind, device.props, view, device.state);
    }

    method StateCallback(state: DeviceState)
      requires Valid()
      modifies this`available, this`view, device`state
      ensures Valid() && device.state == state && Now() == Then(old(Now()), Carried(state)) && Coherent() && available
    {
      available := true;
      device.state := state;
      ApplyState();
      ApplyTwice(kind, device.props, old(view), state);
    }

    /** homeassistant.update_entity: the fetch's expected errors make the entity unavailable, others escape. */
    method ManualUpdate(fetch: Fetch) returns (raised: bool)
      requires Valid()
      modifies this`available, this`view, device`state
      ensures Valid() && raised == fetch.Crash?
      ensures match fetch
              case Answer(state) => device.state == state && Now() == Then(old(Now()), Carried(state)) && Coherent()
              case Unreachable =>
                && Now() == Then(old(Now()), Missed) && device.state == old(device.state)
                && !available && view == old(view)
              case Crash => Now() == old(Now()) && device.state == old(device.state)
    {
      raised := false;
      match fetch
      case Answer(state) => StateCallback(state);
      case Unreachable => available := false;
      case Crash => raised := true;
    }

    /** A sweep's payload arrives; a device missing from it failed its fetch. */
    method CoordinatorUpdate(data: map<string, DeviceState>)
      requires Valid()
      modifies this`available, this`view, (if device.id in data then {device} else {})`state
      ensures Valid()
      ensures device.id in data ==>
                device.state == data[device.id] && Now() == Then(old(Now()), Carried(data[device.id])) && Coherent()
      ensures device.id !in data ==> device.state == old(device.state) && Now() == Then(old(Now()), Missed)
      ensures device.id !in data ==> !available && view == old(view)
    {
      if device.id in data {
        StateCallback(data[device.id]);
      } else {
        available := false;
      }
    }

    /** A pushed frame that is not about this device is ignored; one without a body raises. */
    method BpupCallback(topic: string, body: Option<DeviceState>) returns (raised: bool)
      requires Valid()
      modifies if topic == device.Topic() then {this, device} else {}
      ensures Valid() && raised == (topic == device.Topic() && body.None?)
      ensures if topic == device.Topic() && body.Some?
              then device.state == body.value && Now() == Then(old(Now()), Carried(body.value)) && Coherent()
              else Now() == old(Now()) && device.state == old(device.state)
    {
      if topic != device.Topic() { return false; }
      if body.None? { return true; }
      StateCallback(body.value);
      raised := false;
    }
  }
}
