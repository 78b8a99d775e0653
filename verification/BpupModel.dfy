/**
  The push client as a state machine: one event-loop callback is one step.

  The state joins what the program holds (the fields of the client, of every protocol object its
  factory built, and the shared liveness clock) with what the event loop holds for it (armed
  timers, tasks, transports) and two logs of what went over the wire.
  The functions named after a method of the program are that method's effect on the state; the
  classes in BpupClient.dfy are proved to compute exactly these functions.
 */
module BpupModel {
  import opened Prelude

  const ALIVE_TIMEOUT: real := 70.0
  const KEEP_ALIVE_INTERVAL: real := 30.0
  const RECONNECT_MIN_DELAY: real := 1.0
  const RECONNECT_MAX_DELAY: real := 60.0
  const NEVER: real := -ALIVE_TIMEOUT

  /** A transport: built (connection_made still queued), open, closing, or reported lost. */
  datatype Link = Built | Open | Closing | Lost

  /** A protocol object and its transport; wired: its lost-callback to the client is still set. */
  datatype Endpoint = Endpoint(link: Link, wired: bool, keepAlive: Option<nat>)

  datatype Callback = KeepAlive(ep: nat) | CheckAlive
  datatype Timer = Timer(due: real, callback: Callback)

  /** The await a coroutine is suspended at. */
  datatype Await = Sleeping(wake: real) | Connecting | Handshake(ep: nat) | Done
  datatype Task = Task(at: Await, cancelled: bool)

  /** The caller's await of start(): its OSError leaves a client nobody holds. */
  datatype Startup = Starting(at: Await) | Running | Failed

  /** A datagram sent to, or received from, the bridge. */
  datatype Packet = Packet(ep: nat, at: real)

  datatype State = State(
    // the event loop
    now: real, timers: map<nat, Timer>, handles: nat, tasks: seq<Task>, startup: Startup,
    sent: seq<Packet>, heard: seq<Packet>,
    // the protocols and the subscriptions' clock
    endpoints: seq<Endpoint>, lastMessage: real,
    // the client
    protocol: Option<nat>, watchdog: Option<nat>, reconnect: Option<nat>, stopped: bool, delay: real)

  ghost predicate Initial(s: State) {
    && s.now >= 0.0 && s.timers == map[] && s.tasks == [] && s.startup == Starting(Connecting)
    && s.sent == [] && s.heard == [] && s.endpoints == [] && s.lastMessage == NEVER
    && s.protocol == None && s.watchdog == None && s.reconnect == None
    && !s.stopped && s.delay == RECONNECT_MIN_DELAY
  }

  // ----- BPUPSubscriptions

  predicate Alive(s: State) { s.now - s.lastMessage < ALIVE_TIMEOUT }

  /** A well-formed datagram resets the clock whatever it says. */
  function Notify(s: State, e: nat): State {
    s.(lastMessage := s.now, heard := s.heard + [Packet(e, s.now)])
  }

  // ----- BPUProtocol

  function Cancel(s: State, handle: Option<nat>): State {
    if handle.None? then s else s.(timers := s.timers - {handle.value})
  }

  function SetEndpoint(s: State, e: nat, ep: Endpoint): State
    requires e < |s.endpoints|
  {
    s.(endpoints := s.endpoints[e := ep])
  }

  /** Cancel and forget an endpoint's keep-alive timer. */
  function DropKeepAlive(s: State, e: nat): State
    requires e < |s.endpoints|
  {
    SetEndpoint(Cancel(s, s.endpoints[e].keepAlive), e, s.endpoints[e].(keepAlive := None))
  }

  function SendKeepAlive(s: State, e: nat): State
    requires e < |s.endpoints|
  {
    if s.endpoints[e].link != Open then s
    else
      SetEndpoint(s, e, s.endpoints[e].(keepAlive := Some(s.handles))).(
        sent := s.sent + [Packet(e, s.now)],
        timers := s.timers[s.handles := Timer(s.now + KEEP_ALIVE_INTERVAL, KeepAlive(e))],
        handles := s.handles + 1)
  }

  function ConnectionMade(s: State, e: nat): State
    requires e < |s.endpoints|
  {
    var made := SetEndpoint(s, e, s.endpoints[e].(link := Open));
    SendKeepAlive(DropKeepAlive(made, e), e)
  }

  function ConnectionLost(s: State, e: nat, jitter: real): State
    requires e < |s.endpoints|
  {
    var dropped := DropKeepAlive(s.(lastMessage := NEVER), e);
    if s.endpoints[e].wired then OnConnectionLost(dropped, jitter) else dropped
  }

  function Close(link: Link): Link { if link == Open then Closing else link }

  function ProtocolStop(s: State, e: nat): State
    requires e < |s.endpoints|
  {
    var dropped := DropKeepAlive(s.(lastMessage := NEVER), e);
    SetEndpoint(dropped, e, dropped.endpoints[e].(wired := false, link := Close(s.endpoints[e].link)))
  }

  // ----- BPUPClient

  predicate Unfinished(s: State, t: nat) { t < |s.tasks| && s.tasks[t].at != Done }

  function OnConnectionLost(s: State, jitter: real): State {
    if s.stopped then s else ScheduleReconnect(s, jitter)
  }

  predicate Suppressed(s: State) {
    s.stopped || (s.reconnect.Some? && Unfinished(s, s.reconnect.value))
  }

  function ScheduleReconnect(s: State, jitter: real): State {
    if Suppressed(s) then s
    else
      s.(delay := if s.delay * 2.0 < RECONNECT_MAX_DELAY then s.delay * 2.0 else RECONNECT_MAX_DELAY,
         tasks := s.tasks + [Task(Sleeping(s.now + (s.delay + jitter)), false)],
         reconnect := Some(|s.tasks|))
  }

  function ScheduleWatchdog(s: State): State {
    if s.stopped then s
    else
      s.(timers := s.timers[s.handles := Timer(s.now + ALIVE_TIMEOUT, CheckAlive)],
         watchdog := Some(s.handles), handles := s.handles + 1)
  }

  predicate ProtocolKnown(s: State) { s.protocol.Some? ==> s.protocol.value < |s.endpoints| }

  /** The part of _check_alive that runs when the timeout has passed. */
  function DropDeadProtocol(s: State, jitter: real): State
    requires ProtocolKnown(s)
  {
    var reset := s.(delay := RECONNECT_MIN_DELAY);
    if s.protocol.None? then reset
    else ScheduleReconnect(ProtocolStop(reset.(protocol := None), s.protocol.value), jitter)
  }

  function CheckAliveFires(s: State, jitter: real): State
    requires ProtocolKnown(s)
  {
    if s.stopped then s
    else ScheduleWatchdog(if Alive(s) then s else DropDeadProtocol(s, jitter))
  }

  function CancelTask(s: State, task: Option<nat>): State {
    if task.Some? && Unfinished(s, task.value)
    then s.(tasks := s.tasks[task.value := s.tasks[task.value].(cancelled := true)])
    else s
  }

  /** stop() up to the protocol: no watchdog, the task cancelled. */
  function Halt(s: State): State {
    var timers := Cancel(s.(stopped := true), s.watchdog).(watchdog := None);
    CancelTask(timers, s.reconnect).(reconnect := None)
  }

  function Stop(s: State): State
    requires ProtocolKnown(s)
  {
    if s.protocol.None? then Halt(s) else ProtocolStop(Halt(s), s.protocol.value).(protocol := None)
  }

  // ----- the coroutines start() and _reconnect(), cut at their awaits

  datatype Coroutine = Starter | Worker(task: nat)

  /** Where a coroutine that may still run is suspended; a cancelled one never resumes. */
  function At(s: State, who: Coroutine): Await {
    match who
    case Starter => if s.startup.Starting? then s.startup.at else Done
    case Worker(t) => if t < |s.tasks| && !s.tasks[t].cancelled then s.tasks[t].at else Done
  }

  function MoveTo(s: State, who: Coroutine, at: Await): State
    requires At(s, who) != Done
  {
    match who
    case Starter => s.(startup := Starting(at))
    case Worker(t) => s.(tasks := s.tasks[t := s.tasks[t].(at := at)])
  }

  /** create_datagram_endpoint raises: start() propagates it, _reconnect() catches and retries. */
  function ConnectRaises(s: State, who: Coroutine, jitter: real): State
    requires At(s, who) == Connecting
  {
    match who
    case Starter => s.(startup := Failed)
    case Worker(t) => var retried := ScheduleReconnect(s, jitter);
                      retried.(tasks := retried.tasks[t := retried.tasks[t].(at := Done)])
  }

  /** The factory builds a protocol; the coroutine waits for its connection_made. */
  function Build(s: State, who: Coroutine): State
    requires At(s, who) == Connecting
  {
    MoveTo(s, who, Handshake(|s.endpoints|)).(endpoints := s.endpoints + [Endpoint(Built, true, None)])
  }

  /** _connect() assigns the protocol and its caller runs to the end. */
  function Assign(s: State, who: Coroutine): State
    requires At(s, who).Handshake?
  {
    var connected := s.(protocol := Some(At(s, who).ep));
    match who
    case Starter => ScheduleWatchdog(connected).(startup := Running)
    case Worker(t) => MoveTo(connected, who, Done)
  }

  /** Cancellation reaches a suspended task; asyncio closes a transport it was still waiting for. */
  function DeliverCancel(s: State, t: nat): State
    requires t < |s.tasks|
    requires s.tasks[t].at.Handshake? ==> s.tasks[t].at.ep < |s.endpoints|
  {
    var at := s.tasks[t].at;
    var done := s.(tasks := s.tasks[t := Task(Done, true)]);
    if at.Handshake?
    then SetEndpoint(done, at.ep, s.endpoints[at.ep].(link := Close(s.endpoints[at.ep].link)))
    else done
  }

  // ----- the steps

  datatype Event =
    | ConnectFails(who: Coroutine, jitter: real)
    | EndpointBuilt(who: Coroutine)
    | EndpointMade(ep: nat)
    | Assigned(who: Coroutine)
    | SleepOver(task: nat)
    | CancelDelivered(task: nat)
    | TransportFails(ep: nat)
    | LostReported(ep: nat, jitter: real)
    | TimerFires(handle: nat, jitter: real)
    | Datagram(ep: nat, wellFormed: bool)
    | TimePasses(dt: real)
    | StopCalled

  predicate LinkIs(s: State, e: nat, link: Link) { e < |s.endpoints| && s.endpoints[e].link == link }

  /** random.uniform(0, delay / 2), for the delay in force when it is drawn. */
  predicate JitterFits(delay: real, jitter: real) { 0.0 <= jitter <= delay / 2.0 }

  /** No callback is queued to run at once: the loop is waiting for a timer or the network. */
  predicate Quiet(s: State) {
    && (forall e | 0 <= e < |s.endpoints| :: s.endpoints[e].link != Built)
    && (forall t | 0 <= t < |s.tasks| :: s.tasks[t].at == Done || (!s.tasks[t].cancelled && !s.tasks[t].at.Handshake?))
    && (s.startup.Starting? ==> !s.startup.at.Handshake?)
  }

  /** No armed timer and no sleep ends before the given time. */
  predicate NothingDueBefore(s: State, time: real) {
    && (forall h | h in s.timers :: time <= s.timers[h].due)
    && (forall t | 0 <= t < |s.tasks| && s.tasks[t].at.Sleeping? :: time <= s.tasks[t].at.wake)
  }

  predicate CallbackKnown(s: State, callback: Callback) {
    match callback
    case KeepAlive(e) => e < |s.endpoints|
    case CheckAlive => ProtocolKnown(s)
  }

  /** When an event can happen, from what the event loop guarantees. */
  predicate Can(s: State, ev: Event) {
    match ev
    case ConnectFails(who, jitter) => At(s, who) == Connecting && JitterFits(s.delay, jitter)
    case EndpointBuilt(who) => At(s, who) == Connecting
    case EndpointMade(e) => LinkIs(s, e, Built)
    case Assigned(who) =>
      At(s, who).Handshake? && At(s, who).ep < |s.endpoints| && s.endpoints[At(s, who).ep].link != Built
    case SleepOver(t) => At(s, Worker(t)).Sleeping? && At(s, Worker(t)).wake <= s.now
    case CancelDelivered(t) =>
      && Unfinished(s, t) && s.tasks[t].cancelled
      && (s.tasks[t].at.Handshake? ==>
            s.tasks[t].at.ep < |s.endpoints| && s.endpoints[s.tasks[t].at.ep].link != Built)
    case TransportFails(e) => LinkIs(s, e, Open)
    case LostReported(e, jitter) => LinkIs(s, e, Closing) && JitterFits(s.delay, jitter)
    case TimerFires(h, jitter) =>
      && h in s.timers && s.timers[h].due <= s.now && CallbackKnown(s, s.timers[h].callback)
      && JitterFits(if Alive(s) then s.delay else RECONNECT_MIN_DELAY, jitter)
    case Datagram(e, _) => LinkIs(s, e, Open)
    case TimePasses(dt) => dt > 0.0 && Quiet(s) && NothingDueBefore(s, s.now + dt)
    case StopCalled => s.startup.Running? && ProtocolKnown(s)
  }

  function Next(s: State, ev: Event): State
    requires Can(s, ev)
  {
    match ev
    case ConnectFails(who, jitter) => ConnectRaises(s, who, jitter)
    case EndpointBuilt(who) => Build(s, who)
    case EndpointMade(e) => ConnectionMade(s, e)
    case Assigned(who) => Assign(s, who)
    case SleepOver(t) => MoveTo(s, Worker(t), if s.stopped then Done else Connecting)
    case CancelDelivered(t) => DeliverCancel(s, t)
    case TransportFails(e) => SetEndpoint(s, e, s.endpoints[e].(link := Closing))
    case LostReported(e, jitter) =>
      ConnectionLost(SetEndpoint(s, e, s.endpoints[e].(link := Lost)), e, jitter)
    case TimerFires(h, jitter) =>
      var fired := s.(timers := s.timers - {h});
      (match s.timers[h].callback
       case KeepAlive(e) => SendKeepAlive(fired, e)
       case CheckAlive => CheckAliveFires(fired, jitter))
    case Datagram(e, wellFormed) => if wellFormed then Notify(s, e) else s
    case TimePasses(dt) => s.(now := s.now + dt)
    case StopCalled => Stop(s)
  }

  // ----- runs

  predicate CanRun(s: State, evs: seq<Event>)
    decreases |evs|
  {
    evs == [] || (Can(s, evs[0]) && CanRun(Next(s, evs[0]), evs[1..]))
  }

  function Run(s: State, evs: seq<Event>): State
    requires CanRun(s, evs)
    decreases |evs|
  {
    if evs == [] then s else Run(Next(s, evs[0]), evs[1..])
  }

  ghost predicate Reachable(s: State) {
    exists init, evs :: Initial(init) && CanRun(init, evs) && Run(init, evs) == s
  }
}
