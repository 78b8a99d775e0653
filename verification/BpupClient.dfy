/**
  BPUPClient, BPUProtocol and the event loop they run on, as objects. Each method is proved to have
  exactly the effect BpupModel gives it on the client's view.
 */
module BpupClient {
  import opened Prelude
  import M = BpupModel
  import Entities
  import Subs = Subscriptions

  /** The parts of asyncio the program touches. */
  class EventLoop {
    var now: real
    var timers: map<nat, M.Timer>
    var handles: nat
    var tasks: seq<M.Task>
    var startup: M.Startup
    var links: seq<M.Link>
    ghost var sent: seq<M.Packet>  // what has gone over the wire
    ghost var heard: seq<M.Packet>

    constructor (now: real)
      ensures this.now == now && timers == map[] && tasks == [] && startup == M.Starting(M.Connecting)
      ensures links == [] && sent == [] && heard == []
    {
      this.now, timers, handles, tasks, startup := now, map[], 0, [], M.Starting(M.Connecting);
      links, sent, heard := [], [], [];
    }

    method CallLater(delay: real, callback: M.Callback) returns (handle: nat)
      modifies this`timers, this`handles
      ensures handle == old(handles) && handles == old(handles) + 1
      ensures timers == old(timers)[handle := M.Timer(now + delay, callback)]
    {
      handle := handles;
      timers := timers[handle := M.Timer(now + delay, callback)];
      handles := handles + 1;
    }

    method Cancel(handle: nat)
      modifies this`timers
      ensures timers == old(timers) - {handle}
    {
      timers := timers - {handle};
    }

    /** create_task of a coroutine whose first await is a sleep. */
    method CreateTask(sleep: real) returns (task: nat)
      modifies this`tasks
      ensures task == |old(tasks)| && tasks == old(tasks) + [M.Task(M.Sleeping(now + sleep), false)]
    {
      task := |tasks|;
      tasks := tasks + [M.Task(M.Sleeping(now + sleep), false)];
    }

    predicate Unfinished(task: nat)
      reads this`tasks
    {
      task < |tasks| && tasks[task].at != M.Done
    }

    method CancelTask(task: nat)
      modifies this`tasks
      ensures tasks == if old(Unfinished(task)) then old(tasks)[task := old(tasks)[task].(cancelled := true)]
                       else old(tasks)
    {
      if Unfinished(task) {
        tasks := tasks[task := tasks[task].(cancelled := true)];
      }
    }

    method SendTo(ep: nat)
      modifies this`sent
      ensures sent == old(sent) + [M.Packet(ep, now)]
    {
      sent := sent + [M.Packet(ep, now)];
    }

    method Close(ep: nat)
      requires ep < |links|
      modifies this`links
      ensures links == old(links)[ep := M.Close(old(links)[ep])]
    {
      links := links[ep := M.Close(links[ep])];
    }
  }

  class BPUProtocol {
    const id: nat  // which endpoint of the loop it drives
    const loop: EventLoop
    const subs: Subs.BPUPSubscriptions
    ghost const client: BPUPClient  // the client whose factory built it
    var transport: Option<nat>
    var keepAlive: Option<nat>
    var onConnectionLost: BPUPClient?

    constructor (id: nat, client: BPUPClient)
      ensures this.id == id && this.client == client && loop == client.loop && subs == client.subs
      ensures transport == None && keepAlive == None && onConnectionLost == client
    {
      this.id, this.client, loop, subs := id, client, client.loop, client.subs;
      transport, keepAlive, onConnectionLost := None, None, client;
    }

    ghost predicate Valid()
      reads this, client, loop, subs, client.built
    {
      loop == client.loop && subs == client.subs && client.Valid() && client.Built(this)
    }

    method CancelKeepAlive()
      requires Valid()
      modifies this`keepAlive, loop`timers
      ensures Valid() && client.View() == M.DropKeepAlive(old(client.View()), id)
    {
      if keepAlive.Some? {
        loop.Cancel(keepAlive.value);
        keepAlive := None;
      }
      assert client.View().endpoints == M.DropKeepAlive(old(client.View()), id).endpoints;
    }

    method ConnectionMade()
      requires Valid() && loop.links[id] == M.Built
      modifies this`transport, this`keepAlive, loop
      ensures Valid() && client.View() == M.ConnectionMade(old(client.View()), id)
    {
      transport := Some(id);
      loop.links := loop.links[id := M.Open];
      ghost var made := M.SetEndpoint(old(client.View()), id, old(client.View()).endpoints[id].(link := M.Open));
      assert client.View().endpoints == made.endpoints;
      CancelKeepAlive();
      SendKeepAlive();
    }

    method SendKeepAlive()
      requires Valid()
      modifies this`keepAlive, loop`timers, loop`handles, loop`sent
      ensures Valid() && client.View() == M.SendKeepAlive(old(client.View()), id)
    {
      if transport.None? || loop.links[id] != M.Open { return; }
      loop.SendTo(id);
      var handle := loop.CallLater(M.KEEP_ALIVE_INTERVAL, M.KeepAlive(id));
      keepAlive := Some(handle);
      assert client.View().endpoints == M.SendKeepAlive(old(client.View()), id).endpoints;
    }

    /**
      A datagram arrives; one that is not JSON (None) is dropped before it reaches the subscriptions.
      Any other resets the clock and reaches the entities it is dispatched to.
     */
    method DatagramReceived(frame: Option<Entities.Frame>)
      returns (raised: bool, ghost walked: seq<Entities.BondEntity>)
      requires Valid() && loop.links[id] == M.Open
      requires subs.Valid() && subs.EntitiesValid()
      modifies subs`lastMessageTime, loop`heard
      modifies if frame.Some? then subs.Heeding(frame.value) else {}
      modifies if frame.Some? then set e | e in subs.Heeding(frame.value) :: e.device else {}
      ensures Valid() && subs.Valid()
      ensures client.View() == if frame.Some? then M.Notify(old(client.View()), id) else old(client.View())
      ensures walked == if frame.Some? && Subs.Carries(frame.value) && frame.value.body.Some?
                        then Subs.Dispatch(subs.subs, frame.value.topic.value) else []
      ensures raised <==> && frame.Some? && Subs.Carries(frame.value) && frame.value.body.None?
                          && Subs.Dispatch(subs.subs, frame.value.topic.value) != []
      ensures forall s | s in subs.subs ::
                if s.entity in walked
                then Subs.Shows(s.entity, old(s.entity.Now()), frame.value.body.value)
                else s.entity.Now() == old(s.entity.Now())
      ensures walked == [] ==> forall s | s in subs.subs :: s.entity.device.state == old(s.entity.device.state)
    {
      raised, walked := false, [];
      if frame.Some? {
        loop.heard := loop.heard + [M.Packet(id, loop.now)];
        raised, walked := subs.Notify(frame.value, loop.now);
        client.OnlyHeard(id);
      }
    }

    /** The loop reports the transport lost, having closed it. */
    method ConnectionLost(jitter: real)
      requires Valid() && loop.links[id] == M.Lost
      modifies this`keepAlive, loop`timers, loop`tasks, subs`lastMessageTime, client`delay, client`reconnectTask
      ensures Valid() && client.View() == M.ConnectionLost(old(client.View()), id, jitter)
    {
      subs.ConnectionLost();
      assert client.View() == old(client.View()).(lastMessage := M.NEVER);
      CancelKeepAlive();
      if onConnectionLost != null {
        onConnectionLost.OnConnectionLost(jitter);
      }
    }

    method Stop()
      requires Valid()
      modifies this`onConnectionLost, this`keepAlive, loop`timers, loop`links, subs`lastMessageTime
      ensures Valid() && client.View() == M.ProtocolStop(old(client.View()), id)
    {
      ghost var before := client.View();
      Unwire();
      CancelKeepAlive();
      ghost var silent := client.View();
      if transport.Some? { loop.Close(id); }
      assert client.View().endpoints
          == silent.endpoints[id := silent.endpoints[id].(link := M.Close(before.endpoints[id].link))];
      StopOrder(before, id);
    }

    /** stop() up to the timer: no report to the client, the clock wiped. */
    method Unwire()
      requires Valid()
      modifies this`onConnectionLost, subs`lastMessageTime
      ensures Valid() && client.View() == Unwired(old(client.View()), id)
    {
      onConnectionLost := null;
      subs.ConnectionLost();
      assert client.View().endpoints == Unwired(old(client.View()), id).endpoints;
    }

    static function Unwired(s: M.State, e: nat): M.State
      requires e < |s.endpoints|
    {
      s.(endpoints := s.endpoints[e := s.endpoints[e].(wired := false)], lastMessage := M.NEVER)
    }

    /** Unwiring before or after the timer is dropped comes to the same. */
    static lemma StopOrder(s: M.State, e: nat)
      requires e < |s.endpoints|
      ensures var silent := M.DropKeepAlive(Unwired(s, e), e);
              M.ProtocolStop(s, e) ==
                M.SetEndpoint(silent, e, silent.endpoints[e].(link := M.Close(s.endpoints[e].link)))
    {
      var silent := M.DropKeepAlive(Unwired(s, e), e);
      assert M.ProtocolStop(s, e).endpoints
          == M.SetEndpoint(silent, e, silent.endpoints[e].(link := M.Close(s.endpoints[e].link))).endpoints;
    }
  }

  class BPUPClient {
    const loop: EventLoop
    const subs: Subs.BPUPSubscriptions
    var protocol: BPUProtocol?
    var watchdog: Option<nat>
    var reconnectTask: Option<nat>
    var stopped: bool
    var delay: real
    ghost var built: seq<BPUProtocol>  // every protocol its factory has built, by endpoint

    ghost predicate Built(p: BPUProtocol)
      reads this
    {
      p.id < |built| && built[p.id] == p
    }

    ghost predicate Valid()
      reads this, loop, subs, built
    {
      && |built| == |loop.links|
      && (forall i | 0 <= i < |built| ::
            && built[i].id == i && built[i].client == this && built[i].loop == loop && built[i].subs == subs
            && (built[i].onConnectionLost == null || built[i].onConnectionLost == this)
            && (built[i].transport.None? <==> loop.links[i] == M.Built))
      && (protocol != null ==> Built(protocol))
    }

    ghost function EndpointOf(i: nat): M.Endpoint
      requires i < |built| && i < |loop.links|
      reads this, loop, built
    {
      M.Endpoint(loop.links[i], built[i].onConnectionLost != null, built[i].keepAlive)
    }

    /** The state the objects hold. */
    ghost function View(): M.State
      requires Valid()
      reads this, loop, subs, built
    {
      M.State(loop.now, loop.timers, loop.handles, loop.tasks, loop.startup, loop.sent, loop.heard,
              seq(|built|, i requires 0 <= i < |built| && |built| == |loop.links| reads this, loop, built =>
                             EndpointOf(i)),
              subs.lastMessageTime,
              if protocol == null then None else Some(protocol.id),
              watchdog, reconnectTask, stopped, delay)
    }

    /** A datagram changes the clock and the log of what was heard, and nothing else the client holds. */
    twostate lemma OnlyHeard(e: nat)
      requires old(Valid()) && unchanged(this) && forall i | 0 <= i < |built| :: unchanged(built[i])
      requires unchanged(loop`now, loop`timers, loop`handles, loop`tasks, loop`startup, loop`links, loop`sent)
      requires loop.heard == old(loop.heard) + [M.Packet(e, loop.now)] && subs.lastMessageTime == loop.now
      ensures Valid() && View() == M.Notify(old(View()), e)
    {
      assert View().endpoints == old(View()).endpoints;
    }

    constructor (loop: EventLoop, subs: Subs.BPUPSubscriptions)
      requires loop.now >= 0.0 && loop.timers == map[] && loop.tasks == [] && loop.links == []
      requires loop.startup == M.Starting(M.Connecting) && loop.sent == [] && loop.heard == []
      requires subs.lastMessageTime == M.NEVER
      ensures this.loop == loop && this.subs == subs && Valid() && M.Initial(View())
    {
      this.loop, this.subs := loop, subs;
      protocol, watchdog, reconnectTask := null, None, None;
      stopped, delay := false, M.RECONNECT_MIN_DELAY;
      built := [];
    }

    method OnConnectionLost(jitter: real)
      requires Valid()
      modifies this`delay, this`reconnectTask, loop`tasks
      ensures Valid() && View() == M.OnConnectionLost(old(View()), jitter)
    {
      if stopped { return; }
      ScheduleReconnect(jitter);
    }

    method ScheduleReconnect(jitter: real)
      requires Valid()
      modifies this`delay, this`reconnectTask, loop`tasks
      ensures Valid() && View() == M.ScheduleReconnect(old(View()), jitter)
    {
      if stopped || (reconnectTask.Some? && loop.Unfinished(reconnectTask.value)) { return; }
      var wait := delay + jitter;
      delay := if delay * 2.0 < M.RECONNECT_MAX_DELAY then delay * 2.0 else M.RECONNECT_MAX_DELAY;
      var task := loop.CreateTask(wait);
      reconnectTask := Some(task);
    }

    method ScheduleWatchdog()
      requires Valid()
      modifies this`watchdog, loop`timers, loop`handles
      ensures Valid() && View() == M.ScheduleWatchdog(old(View()))
    {
      if stopped { return; }
      var handle := loop.CallLater(M.ALIVE_TIMEOUT, M.CheckAlive);
      watchdog := Some(handle);
    }

    predicate Alive()
      reads loop, subs
    {
      loop.now - subs.lastMessageTime < M.ALIVE_TIMEOUT
    }

    method CheckAlive(jitter: real)
      requires Valid()
      modifies this`protocol, this`delay, this`reconnectTask, this`watchdog
      modifies loop`timers, loop`handles, loop`tasks, loop`links, subs`lastMessageTime
      modifies (if protocol == null then {} else {protocol})`onConnectionLost
      modifies (if protocol == null then {} else {protocol})`keepAlive
      ensures Valid() && View() == M.CheckAliveFires(old(View()), jitter)
    {
      if stopped { return; }
      if !Alive() {
        DropDeadProtocol(jitter);
      }
      ScheduleWatchdog();
    }

    method DropDeadProtocol(jitter: real)
      requires Valid()
      modifies this`protocol, this`delay, this`reconnectTask
      modifies loop`timers, loop`tasks, loop`links, subs`lastMessageTime
      modifies (if protocol == null then {} else {protocol})`onConnectionLost
      modifies (if protocol == null then {} else {protocol})`keepAlive
      ensures Valid() && View() == M.DropDeadProtocol(old(View()), jitter)
    {
      ghost var before := View();
      delay := M.RECONNECT_MIN_DELAY;
      assert View() == before.(delay := M.RECONNECT_MIN_DELAY);
      if protocol != null {
        RebuildEndpoint(jitter);
      }
    }

    /** Closing the endpoint also silences its report of the loss, so the reconnect is scheduled here. */
    method RebuildEndpoint(jitter: real)
      requires Valid() && protocol != null
      modifies this`protocol, this`delay, this`reconnectTask
      modifies loop`timers, loop`tasks, loop`links, subs`lastMessageTime
      modifies protocol`onConnectionLost, protocol`keepAlive
      ensures Valid()
      ensures View() == M.ScheduleReconnect(M.ProtocolStop(old(View()).(protocol := None), old(protocol.id)), jitter)
    {
      var dead := protocol;
      protocol := null;
      assert View() == old(View()).(protocol := None);
      dead.Stop();
      ScheduleReconnect(jitter);
    }

    method Stop()
      requires Valid()
      modifies this`stopped, this`watchdog, this`reconnectTask, this`protocol
      modifies loop`timers, loop`tasks, loop`links, subs`lastMessageTime
      modifies (if protocol == null then {} else {protocol})`onConnectionLost
      modifies (if protocol == null then {} else {protocol})`keepAlive
      ensures Valid() && View() == M.Stop(old(View()))
    {
      Halt();
      if protocol != null {
        protocol.Stop();
        ghost var unheld := View();
        protocol := null;
        assert View() == unheld.(protocol := None);
      }
    }

    /** stop() up to the protocol. */
    method Halt()
      requires Valid()
      modifies this`stopped, this`watchdog, this`reconnectTask, loop`timers, loop`tasks
      ensures Valid() && View() == M.Halt(old(View()))
    {
      ghost var before := View();
      stopped := true;
      assert View() == before.(stopped := true);
      CancelWatchdog();
      CancelReconnect();
    }

    method CancelWatchdog()
      requires Valid()
      modifies this`watchdog, loop`timers
      ensures Valid() && View() == M.Cancel(old(View()), old(watchdog)).(watchdog := None)
    {
      if watchdog.Some? {
        loop.Cancel(watchdog.value);
        watchdog := None;
      }
    }

    method CancelReconnect()
      requires Valid()
      modifies this`reconnectTask, loop`tasks
      ensures Valid() && View() == M.CancelTask(old(View()), old(reconnectTask)).(reconnect := None)
    {
      if reconnectTask.Some? {
        loop.CancelTask(reconnectTask.value);
        reconnectTask := None;
      }
    }

    // ----- start() and _reconnect(), from one await to the next

    /** The factory handed to create_datagram_endpoint. */
    method BuildProtocol(who: M.Coroutine)
      requires Valid() && M.At(View(), who) == M.Connecting
      modifies this`built, loop`links, loop`tasks, loop`startup
      ensures Valid() && View() == M.Build(old(View()), who)
    {
      var p := new BPUProtocol(|loop.links|, this);
      match who {
        case Starter => loop.startup := M.Starting(M.Handshake(|loop.links|));
        case Worker(t) => loop.tasks := loop.tasks[t := loop.tasks[t].(at := M.Handshake(|loop.links|))];
      }
      loop.links := loop.links + [M.Built];
      built := built + [p];
      assert View().endpoints == old(View()).endpoints + [M.Endpoint(M.Built, true, None)];
    }

    /** create_datagram_endpoint returns the protocol: the rest of _connect(), and of its caller. */
    method ConnectReturns(who: M.Coroutine, made: BPUProtocol)
      requires Valid() && M.At(View(), who) == M.Handshake(made.id) && Built(made)
      modifies this`protocol, this`watchdog, loop
      ensures Valid() && View() == M.Assign(old(View()), who)
    {
      protocol := made;
      match who
      case Starter =>
        ScheduleWatchdog();
        loop.startup := M.Running;
      case Worker(t) => loop.tasks := loop.tasks[t := loop.tasks[t].(at := M.Done)];
    }

    /** create_datagram_endpoint raises OSError; the retry runs inside the task its own guard inspects. */
    method ConnectRaises(who: M.Coroutine, jitter: real)
      requires Valid() && M.At(View(), who) == M.Connecting
      modifies this`delay, this`reconnectTask, loop
      ensures Valid() && View() == M.ConnectRaises(old(View()), who, jitter)
    {
      match who
      case Starter => loop.startup := M.Failed;
      case Worker(t) =>
        ScheduleReconnect(jitter);
        loop.tasks := loop.tasks[t := loop.tasks[t].(at := M.Done)];
    }

    /** _reconnect() wakes from its sleep. */
    method SleepReturns(t: nat)
      requires Valid() && M.At(View(), M.Worker(t)).Sleeping?
      modifies loop`tasks
      ensures Valid() && View() == M.MoveTo(old(View()), M.Worker(t), if old(stopped) then M.Done else M.Connecting)
    {
      loop.tasks := loop.tasks[t := loop.tasks[t].(at := if stopped then M.Done else M.Connecting)];
    }
  }
}
