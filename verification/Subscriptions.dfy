/** The callback index of BPUPSubscriptions, against a plain list of subscriptions. */
module Subscriptions {
  import opened Prelude
  import opened Entities
  import opened Topics

  /** A registered callback: the bound _async_bpup_callback of an entity, filed under an id. */
  datatype Sub = Sub(id: string, entity: BondEntity)

  /** The callbacks filed under an id, in order. */
  function Filed(subs: seq<Sub>, id: string): seq<BondEntity> {
    if subs == [] then []
    else if subs[0].id == id then [subs[0].entity] + Filed(subs[1..], id)
    else Filed(subs[1..], id)
  }

  function About(entities: seq<BondEntity>, topic: string): seq<BondEntity> {
    if entities == [] then []
    else if entities[0].device.Topic() == topic then [entities[0]] + About(entities[1..], topic)
    else About(entities[1..], topic)
  }

  /** Broadcasting: every subscriber whose topic is the frame's, in order of subscription. */
  function Broadcast(subs: seq<Sub>, topic: string): seq<BondEntity> {
    if subs == [] then []
    else if subs[0].entity.device.Topic() == topic then [subs[0].entity] + Broadcast(subs[1..], topic)
    else Broadcast(subs[1..], topic)
  }

  /** Every entity is filed under its own id, as async_added_to_hass does. */
  predicate FiledById(subs: seq<Sub>) { forall s | s in subs :: s.id == s.entity.device.id }

  /** The dispatch: look up the topic's second part, then let each callback check the topic. */
  function Dispatch(subs: seq<Sub>, topic: string): seq<BondEntity> {
    var parts := Split(topic);
    if |parts| < 2 then [] else About(Filed(subs, parts[1]), topic)
  }

  /** An entity whose id holds a slash never hears its own topic: the index looks elsewhere. */
  lemma {:induction false} SlashedIdUnheard(subs: seq<Sub>, entity: BondEntity)
    requires FiledById(subs) && !SlashFree(entity.device.id)
    ensures entity !in Dispatch(subs, entity.device.Topic())
  {
    SecondPartIsId(entity.device.isGroup, entity.device.id);
    NotFiled(subs, Split(entity.device.Topic())[1], entity);
    AboutIsPart(Filed(subs, Split(entity.device.Topic())[1]), entity.device.Topic(), entity);
  }

  /** Nobody who would hear the topic has a slash in the id. */
  predicate HeardSlashFree(subs: seq<Sub>, topic: string) {
    forall s | s in subs && s.entity.device.Topic() == topic :: SlashFree(s.id)
  }

  /**
    The dispatch reaches the entities a broadcast reaches, in the same order, exactly when nobody the
    broadcast would reach has a slash in the id.
   */
  lemma IndexRefinesBroadcast(subs: seq<Sub>, topic: string)
    requires FiledById(subs)
    ensures Dispatch(subs, topic) == Broadcast(subs, topic) <==> HeardSlashFree(subs, topic)
  {
    if HeardSlashFree(subs, topic) {
      SlashFreeReached(subs, topic);
    } else {
      var s :| s in subs && s.entity.device.Topic() == topic && !SlashFree(s.id);
      SlashedIdUnheard(subs, s.entity);
      BroadcastReaches(subs, topic, s);
    }
  }

  lemma {:induction false} SlashFreeReached(subs: seq<Sub>, topic: string)
    requires FiledById(subs) && HeardSlashFree(subs, topic)
    ensures Dispatch(subs, topic) == Broadcast(subs, topic)
  {
    if subs != [] {
      SlashFreeReached(subs[1..], topic);
      assert subs[0] in subs;
      var device := subs[0].entity.device;
      SecondPartIsId(device.isGroup, device.id);
    }
  }

  lemma {:induction false} BroadcastReaches(subs: seq<Sub>, topic: string, s: Sub)
    requires s in subs && s.entity.device.Topic() == topic
    ensures s.entity in Broadcast(subs, topic)
  {
    if s != subs[0] { BroadcastReaches(subs[1..], topic, s); }
  }

  /** The subscribed entities of one device, or of one group, in order. */
  function Members(subs: seq<Sub>, isGroup: bool, id: string): seq<BondEntity> {
    if subs == [] then []
    else if subs[0].entity.device.isGroup == isGroup && subs[0].entity.device.id == id
    then [subs[0].entity] + Members(subs[1..], isGroup, id)
    else Members(subs[1..], isGroup, id)
  }

  lemma {:induction false} BroadcastIsMembers(subs: seq<Sub>, isGroup: bool, id: string)
    ensures Broadcast(subs, TopicOf(isGroup, id)) == Members(subs, isGroup, id)
  {
    if subs != [] {
      BroadcastIsMembers(subs[1..], isGroup, id);
      var device := subs[0].entity.device;
      if device.Topic() == TopicOf(isGroup, id) { TopicsDiffer(device.isGroup, device.id, isGroup, id); }
    }
  }

  /** A topic devices/{id}/state reaches that device's entities, groups/{id}/state that group's, in order. */
  lemma DispatchReaches(subs: seq<Sub>, id: string)
    requires FiledById(subs) && SlashFree(id)
    ensures Dispatch(subs, "devices/" + id + "/state") == Members(subs, false, id)
    ensures Dispatch(subs, "groups/" + id + "/state") == Members(subs, true, id)
  {
    TopicSpelled(id);
    KindReaches(subs, false, id);
    KindReaches(subs, true, id);
  }

  lemma KindReaches(subs: seq<Sub>, isGroup: bool, id: string)
    requires FiledById(subs) && SlashFree(id)
    ensures Dispatch(subs, TopicOf(isGroup, id)) == Members(subs, isGroup, id)
  {
    BroadcastIsMembers(subs, isGroup, id);
    forall s | s in subs && s.entity.device.Topic() == TopicOf(isGroup, id)
      ensures SlashFree(s.id)
    {
      TopicsDiffer(s.entity.device.isGroup, s.entity.device.id, isGroup, id);
    }
    SlashFreeReached(subs, TopicOf(isGroup, id));
  }

  /** The frame is an update about this device: no error status, and the device's own topic. */
  predicate Addresses(frame: Frame, device: BondDevice) {
    && (frame.status == None || frame.status == Some(200))
    && frame.topic == Some((if device.isGroup then "groups/" else "devices/") + device.id + "/state")
  }

  /** Exactly the entities with slash-free ids whose device a frame addresses are reached by it. */
  lemma AddressedReached(subs: seq<Sub>, frame: Frame, s: Sub)
    requires FiledById(subs) && s in subs
    ensures Carries(frame) && s.entity in Dispatch(subs, frame.topic.value) <==>
              SlashFree(s.id) && Addresses(frame, s.entity.device)
  {
    var device := s.entity.device;
    TopicSpelled(device.id);
    SecondPartIsId(device.isGroup, device.id);
    FiledMember(subs, s);
    if !SlashFree(s.id) { SlashedIdUnheard(subs, s.entity); }
    if frame.topic.Some? && |Split(frame.topic.value)| >= 2 {
      AboutIsPart(Filed(subs, Split(frame.topic.value)[1]), frame.topic.value, s.entity);
    }
  }

  lemma SomebodyReached(subs: seq<Sub>, frame: Frame)
    requires FiledById(subs)
    ensures Carries(frame) && Dispatch(subs, frame.topic.value) != [] <==>
              exists s | s in subs :: SlashFree(s.id) && Addresses(frame, s.entity.device)
  {
    if Carries(frame) && Dispatch(subs, frame.topic.value) != [] {
      var topic := frame.topic.value;
      var first := Dispatch(subs, topic)[0];
      AboutIsPart(Filed(subs, Split(topic)[1]), topic, first);
      FiledFrom(subs, Split(topic)[1], first);
      var s :| s in subs && s.entity == first;
      AddressedReached(subs, frame, s);
    }
    if s :| s in subs && SlashFree(s.id) && Addresses(frame, s.entity.device) {
      AddressedReached(subs, frame, s);
    }
  }

  lemma NotFiled(subs: seq<Sub>, id: string, entity: BondEntity)
    requires FiledById(subs) && entity.device.id != id
    ensures entity !in Filed(subs, id)
  {
    if subs != [] { NotFiled(subs[1..], id, entity); }
  }

  lemma AboutIsPart(entities: seq<BondEntity>, topic: string, entity: BondEntity)
    ensures entity in About(entities, topic) <==> entity in entities && entity.device.Topic() == topic
  {}

  lemma {:induction false} FiledAppend(subs: seq<Sub>, sub: Sub, id: string)
    ensures Filed(subs + [sub], id) == Filed(subs, id) + if sub.id == id then [sub.entity] else []
  {
    if subs != [] {
      assert (subs + [sub])[1..] == subs[1..] + [sub];
      FiledAppend(subs[1..], sub, id);
    } else {
      assert (subs + [sub])[1..] == [];
    }
  }

  /** list.remove: drop the first occurrence. */
  function Without<T(==)>(xs: seq<T>, x: T): seq<T> {
    if xs == [] then [] else if xs[0] == x then xs[1..] else [xs[0]] + Without(xs[1..], x)
  }

  /** It takes out the first occurrence, and nothing when there is none. */
  lemma {:induction false} WithoutFirst<T>(before: seq<T>, x: T, after: seq<T>)
    requires x !in before
    ensures Without(before + [x] + after, x) == before + after
    ensures Without(before, x) == before
  {
    var xs := before + [x] + after;
    if before == [] {
      assert xs[0] == x && xs[1..] == after;
    } else {
      assert xs[0] == before[0] && xs[1..] == before[1..] + [x] + after;
      WithoutFirst(before[1..], x, after);
      assert [before[0]] + (before[1..] + after) == before + after;
    }
  }

  lemma {:induction false} FiledWithout(subs: seq<Sub>, sub: Sub, id: string)
    ensures Filed(Without(subs, sub), id)
         == if sub.id == id then Without(Filed(subs, id), sub.entity) else Filed(subs, id)
  {
    if subs != [] && subs[0] != sub {
      FiledWithout(subs[1..], sub, id);
      assert ([subs[0]] + Without(subs[1..], sub))[1..] == Without(subs[1..], sub);
    }
  }

  lemma {:induction false} FiledMember(subs: seq<Sub>, sub: Sub)
    ensures sub in subs <==> sub.entity in Filed(subs, sub.id)
  {
    if subs != [] {
      FiledMember(subs[1..], sub);
      assert sub in subs <==> sub == subs[0] || sub in subs[1..];
    }
  }

  /** Whether a frame gets past the status and topic checks of notify. */
  predicate Carries(frame: Frame) {
    (frame.status == None || frame.status == Some(200)) && frame.topic.Some? && frame.topic.value != ""
  }

  class BPUPSubscriptions {
    var callbacks: map<string, seq<BondEntity>>
    var lastMessageTime: real
    ghost var subs: seq<Sub>  // the flat list: every subscription made and not undone, in order

    ghost predicate Valid()
      reads this
    {
      forall id :: Filed(subs, id) == if id in callbacks then callbacks[id] else []
    }

    ghost predicate EntitiesValid()
      reads this, set s | s in subs :: s.entity
    {
      forall s | s in subs :: s.entity.Valid()
    }

    constructor ()
      ensures Valid() && subs == [] && lastMessageTime == -70.0
    {
      callbacks := map[];
      lastMessageTime := -70.0;
      subs := [];
    }

    method ConnectionLost()
      modifies this`lastMessageTime
      ensures lastMessageTime == -70.0
    {
      lastMessageTime := -70.0;
    }

    method Subscribe(id: string, entity: BondEntity)
      requires Valid()
      modifies this`callbacks, this`subs
      ensures Valid() && subs == old(subs) + [Sub(id, entity)]
    {
      forall other { FiledAppend(subs, Sub(id, entity), other); }
      callbacks := callbacks[id := (if id in callbacks then callbacks[id] else []) + [entity]];
      subs := subs + [Sub(id, entity)];
    }

    /** Raises, changing nothing, when there is no such subscription. */
    method Unsubscribe(id: string, entity: BondEntity) returns (raised: bool)
      requires Valid()
      modifies this`callbacks, this`subs
      ensures Valid() && raised == (Sub(id, entity) !in old(subs))
      ensures subs == Without(old(subs), Sub(id, entity))
    {
      FiledMember(subs, Sub(id, entity));
      if id !in callbacks || entity !in callbacks[id] {
        assert Filed(subs, id) == if id in callbacks then callbacks[id] else [];
        WithoutFirst(subs, Sub(id, entity), []);
        return true;
      }
      forall other { FiledWithout(subs, Sub(id, entity), other); }
      callbacks := callbacks[id := Without(callbacks[id], entity)];
      subs := Without(subs, Sub(id, entity));
      raised := false;
    }

    /** The entities a frame reaches. */
    ghost function Heeding(frame: Frame): set<BondEntity>
      reads this
    {
      if Carries(frame) then set e | e in Dispatch(subs, frame.topic.value) else {}
    }

    /**
      A frame arrives. It touches exactly the entities it is dispatched to and their devices; each of
      them then shows the one new state, entities that share a device included.
     */
    method Notify(frame: Frame, now: real) returns (raised: bool, ghost walked: seq<BondEntity>)
      requires Valid() && EntitiesValid()
      modifies this`lastMessageTime
      modifies Heeding(frame)
      modifies set e | e in Heeding(frame) :: e.device
      ensures Valid() && lastMessageTime == now
      ensures walked == if Carries(frame) && frame.body.Some? then Dispatch(subs, frame.topic.value) else []
      ensures Carries(frame) && FiledById(subs) ==>
                (Dispatch(subs, frame.topic.value) == Broadcast(subs, frame.topic.value) <==>
                   HeardSlashFree(subs, frame.topic.value))
      ensures FiledById(subs) ==>
                forall s | s in subs ::
                  s.entity in walked <==> SlashFree(s.id) && Addresses(frame, s.entity.device) && frame.body.Some?
      ensures FiledById(subs) ==>
                (raised <==> frame.body.None?
                               && exists s | s in subs :: SlashFree(s.id) && Addresses(frame, s.entity.device))
      ensures raised <==> Carries(frame) && frame.body.None? && Dispatch(subs, frame.topic.value) != []
      ensures forall s | s in old(subs) ::
                if s.entity in walked
                then Shows(s.entity, old(s.entity.Now()), frame.body.value)
                else s.entity.Now() == old(s.entity.Now())
      ensures walked == [] ==> forall s | s in old(subs) :: s.entity.device.state == old(s.entity.device.state)
    {
      lastMessageTime := now;
      raised, walked := false, [];
      if Carries(frame) {
        raised, walked := NotifyTopic(frame.topic.value, frame.body);
        if FiledById(subs) { IndexRefinesBroadcast(subs, frame.topic.value); }
      }
      if FiledById(subs) {
        SomebodyReached(subs, frame);
        forall s | s in subs
          ensures s.entity in walked <==> SlashFree(s.id) && Addresses(frame, s.entity.device) && frame.body.Some?
        {
          AddressedReached(subs, frame, s);
        }
      }
    }

    /** notify() from the split of the topic on. */
    method NotifyTopic(topic: string, body: Option<DeviceState>) returns (raised: bool, ghost walked: seq<BondEntity>)
      requires Valid() && EntitiesValid()
      modifies set e | e in Dispatch(subs, topic)
      modifies set e | e in Dispatch(subs, topic) :: e.device
      ensures walked == if body.Some? then Dispatch(subs, topic) else []
      ensures raised <==> body.None? && Dispatch(subs, topic) != []
      ensures forall s | s in subs ::
                if s.entity in walked then Shows(s.entity, old(s.entity.Now()), body.value)
                else s.entity.Now() == old(s.entity.Now())
      ensures walked == [] ==> forall s | s in subs :: s.entity.device.state == old(s.entity.device.state)
    {
      raised, walked := false, [];
      var parts := Split(topic);
      if |parts| < 2 { return; }
      assert Filed(subs, parts[1]) == if parts[1] in callbacks then callbacks[parts[1]] else [];
      var list := if parts[1] in callbacks then callbacks[parts[1]] else [];
      forall e | e in list ensures e.Valid() { FiledFrom(subs, parts[1], e); }
      raised, walked := CallEach(list, topic, body);
      forall e | e in About(list, topic) ensures e in list { AboutIsPart(list, topic, e); }
    }
  }

  lemma FiledFrom(subs: seq<Sub>, id: string, entity: BondEntity)
    requires entity in Filed(subs, id)
    ensures exists s :: s in subs && s.entity == entity
  {
    if subs[0].id != id || subs[0].entity != entity {
      FiledFrom(subs[1..], id, entity);
    } else {
      assert subs[0] in subs;
    }
  }

  /** The entity took the state in: it is available and shows the view derived from it. */
  ghost predicate Shows(e: BondEntity, before: Shown, state: DeviceState)
    reads e, e.device
  {
    && e.Valid() && e.device.state == state && Fits(e.kind, before.view)
    && e.Now() == e.Then(before, Carried(state)) && e.Coherent()
  }

  lemma {:induction false} AboutAppend(list: seq<BondEntity>, e: BondEntity, topic: string)
    ensures About(list + [e], topic) == About(list, topic) + if e.device.Topic() == topic then [e] else []
  {
    if list != [] {
      assert (list + [e])[1..] == list[1..] + [e];
      AboutAppend(list[1..], e, topic);
    } else {
      assert (list + [e])[1..] == [];
    }
  }

  lemma {:induction false} AboutFirst(list: seq<BondEntity>, i: nat, topic: string)
    requires i < |list| && list[i].device.Topic() == topic
    ensures About(list, topic) != []
  {
    if i > 0 && list[0].device.Topic() != topic { AboutFirst(list[1..], i - 1, topic); }
  }

  /** What a walk over the callbacks has done by the time it has reached some of them. */
  ghost predicate Walked(list: seq<BondEntity>, walked: seq<BondEntity>, before: map<BondEntity, Shown>,
                         body: Option<DeviceState>)
    requires walked != [] ==> body.Some?
    requires forall e | e in list :: e in before
    reads set e | e in list, set e | e in list :: e.device
  {
    forall e | e in list ::
      e.Valid() && if e in walked then Shows(e, before[e], body.value) else e.Now() == before[e]
  }

  /** One callback. Entities sharing its device have either taken the same state in or not been reached. */
  method CallOne(list: seq<BondEntity>, ghost walked: seq<BondEntity>, e: BondEntity, topic: string,
                 body: Option<DeviceState>, ghost before: map<BondEntity, Shown>)
    returns (raised: bool, ghost on: seq<BondEntity>)
    requires e in list && (forall o | o in list :: o in before) && (walked != [] ==> body.Some?)
    requires Walked(list, walked, before, body)
    modifies if topic == e.device.Topic() then {e, e.device} else {}
    ensures raised == (topic == e.device.Topic() && body.None?)
    ensures on == if topic == e.device.Topic() && body.Some? then walked + [e] else walked
    ensures Walked(list, on, before, body)
    ensures on == walked ==> forall o | o in list :: o.device.state == old(o.device.state)
  {
    on := walked;
    if body.Some? { ApplyTwice(e.kind, e.device.props, before[e].view, body.value); }
    raised := e.BpupCallback(topic, body);
    if topic == e.device.Topic() && body.Some? { on := walked + [e]; }
  }

  /** Calls the callbacks in order; the first that raises ends the walk. */
  method CallEach(list: seq<BondEntity>, topic: string, body: Option<DeviceState>)
    returns (raised: bool, ghost walked: seq<BondEntity>)
    requires forall e | e in list :: e.Valid()
    modifies set e | e in About(list, topic)
    modifies set e | e in About(list, topic) :: e.device
    ensures walked == if body.Some? then About(list, topic) else []
    ensures raised <==> body.None? && About(list, topic) != []
    ensures forall e | e in list ::
              if e in walked then Shows(e, old(e.Now()), body.value) else e.Now() == old(e.Now())
    ensures walked == [] ==> forall e | e in list :: e.device.state == old(e.device.state)
  {
    raised, walked := false, [];
    ghost var before := map e | e in list :: e.Now();
    for i := 0 to |list|
      invariant walked == if body.Some? then About(list[..i], topic) else []
      invariant body.None? ==> About(list[..i], topic) == []
      invariant Walked(list, walked, before, body)
      invariant walked == [] ==> forall e | e in list :: e.device.state == old(e.device.state)
    {
      var e := list[i];
      assert list[..i + 1] == list[..i] + [e];
      AboutAppend(list[..i], e, topic);
      AboutIsPart(list, topic, e);
      raised, walked := CallOne(list, walked, e, topic, body, before);
      if raised {
        AboutFirst(list, i, topic);
        return;
      }
    }
    assert list[..|list|] == list;
  }
}
