/**
 The shared state behind `_subscriptionsMutex` and `_latchedChannelsMutex`, together with the
 part of the SDK and of roscpp that it talks to, as a transition system. One event is one
 critical section of the bridge, or one step of the SDK or of roscpp between two of them.
 */
module ChannelModel {
  import opened Wrappers
  import opened Sequences

  type ChannelId = nat
  type ClientId = nat
  type SinkId = nat
  /** Names one ros::Subscriber. */
  type RosId = nat
  /** Names one SDK-level subscription of a client to a channel; a resubscription gets a new token. */
  type Token = nat
  type Bytes = seq<bv8>

  datatype TopicAndDatatype = TopicAndDatatype(topic: string, typeName: string)
  datatype Client = Client(id: ClientId, isGateway: bool)
  datatype Channel = Channel(topic: string, schema: Option<string>)
  datatype Cached = Cached(data: Bytes, timestamp: nat)

  datatype Subscription = Subscription(
    ros: RosId,
    wsClientIds: set<ClientId>,
    gatewayClientIds: set<ClientId>,
    latchedMessages: map<string, Cached>
  )

  /** A message event as roscpp hands it over; the connection header may be missing. */
  datatype RosMessage = RosMessage(header: Option<map<string, string>>, content: Cached) {
    predicate Latched() {
      header.Some? && "latching" in header.value && header.value["latching"] == "1"
    }
    function CallerId(): string {
      if header.Some? && "callerid" in header.value then header.value["callerid"] else ""
    }
  }

  /**
   One message handed to one SDK subscription; `publisher` is the callerid of a latched message.
   History: whether it came from the cache.
   */
  datatype Delivery = Delivery(publisher: Option<string>, content: Cached, replayed: bool)

  /**
   `missed`: how many latched messages of the present ROS subscription were handled before this
   SDK subscription was made; none once a replay to its sink has caught it up.
   */
  datatype SdkSubscription = SdkSubscription(
    channel: ChannelId,
    client: Client,
    sink: Option<SinkId>,
    live: bool,
    missed: nat,
    sent: seq<Delivery>
  )

  /** Where the poll thread stands in updateAdvertisedTopics. */
  datatype Poll =
    | Idle
    | Teardown(latest: set<TopicAndDatatype>, closing: set<ChannelId>, releasing: set<RosId>)

  datatype World = World(
    nextChannel: ChannelId,
    nextRos: RosId,
    open: set<ChannelId>,                  // created at the SDK and not closed yet
    removed: set<ChannelId>,               // every channel ever collected for closing
    tokens: map<Token, SdkSubscription>,
    rosChannel: map<RosId, ChannelId>,     // ROS subscribers that are not destroyed yet
    onStack: set<RosId>,                   // released by an onUnsubscribe that has not returned
    inFlight: multiset<(RosId, RosMessage)>,
    handled: map<ChannelId, seq<RosMessage>>, // latched messages since the subscription was made
    poll: Poll
  )

  datatype State = State(
    channels: map<ChannelId, Channel>,
    subscriptions: map<ChannelId, Subscription>,
    latchedChannels: set<ChannelId>,
    world: World
  )

  // ---------------------------------------------------------------- the SDK's channel.log

  function Receive(sub: SdkSubscription, ch: ChannelId, sink: Option<SinkId>, ds: seq<Delivery>): SdkSubscription {
    if sub.live && sub.channel == ch && (sink.Some? ==> sub.sink == sink) then sub.(sent := sub.sent + ds) else sub
  }

  /** channel.log: without a sink to every live subscription of the channel, else to that sink only. */
  function Log(w: World, ch: ChannelId, sink: Option<SinkId>, ds: seq<Delivery>): World {
    w.(tokens := map t | t in w.tokens :: Receive(w.tokens[t], ch, sink, ds))
  }

  lemma LogTwice(w: World, ch: ChannelId, sink: Option<SinkId>, ds: seq<Delivery>, d: Delivery)
    ensures Log(Log(w, ch, sink, ds), ch, sink, [d]) == Log(w, ch, sink, ds + [d])
  {
    forall t | t in w.tokens
      ensures Log(Log(w, ch, sink, ds), ch, sink, [d]).tokens[t] == Log(w, ch, sink, ds + [d]).tokens[t]
    {
      assert w.tokens[t].sent + ds + [d] == w.tokens[t].sent + (ds + [d]);
    }
  }

  lemma LogNothing(w: World, ch: ChannelId, sink: Option<SinkId>)
    ensures Log(w, ch, sink, []) == w
  {
    forall t | t in w.tokens ensures Log(w, ch, sink, []).tokens[t] == w.tokens[t] {
      assert w.tokens[t].sent + [] == w.tokens[t].sent;
    }
  }

  /** An order in which the cache may be walked, once. */
  ghost predicate Enumerates(order: seq<string>, cache: map<string, Cached>) {
    (forall c :: c in order <==> c in cache) && NoRepeats(order)
  }

  function Replays(order: seq<string>, cache: map<string, Cached>): seq<Delivery>
    requires forall c :: c in order ==> c in cache
  {
    seq(|order|, i requires 0 <= i < |order| => Delivery(Some(order[i]), cache[order[i]], true))
  }

  // ---------------------------------------------------------------- the critical sections

  function WithClient(sub: Subscription, c: Client): Subscription {
    if c.isGateway then sub.(gatewayClientIds := sub.gatewayClientIds + {c.id})
    else sub.(wsClientIds := sub.wsClientIds + {c.id})
  }

  function WithoutClient(sub: Subscription, c: Client): Subscription {
    if c.isGateway then sub.(gatewayClientIds := sub.gatewayClientIds - {c.id})
    else sub.(wsClientIds := sub.wsClientIds - {c.id})
  }

  /** The channel's clients, or those at one sink, have missed nothing. */
  function CatchUp(w: World, ch: ChannelId, sink: Option<SinkId>): World {
    w.(tokens := map t | t in w.tokens ::
      if w.tokens[t].channel == ch && (sink.Some? ==> w.tokens[t].sink == sink) then w.tokens[t].(missed := 0)
      else w.tokens[t])
  }

  /** How much of a channel's present history a new SDK subscription comes too late for. */
  function Missed(s: State, ch: ChannelId): nat {
    if ch in s.subscriptions && ch in s.world.handled then |s.world.handled[ch]| else 0
  }

  ghost function Subscribe(s: State, tok: Token, sink: Option<SinkId>, order: seq<string>): State
    requires tok in s.world.tokens
    requires var ch := s.world.tokens[tok].channel;
             ch in s.subscriptions ==> Enumerates(order, s.subscriptions[ch].latchedMessages)
  {
    var ch := s.world.tokens[tok].channel;
    var client := s.world.tokens[tok].client;
    if ch !in s.channels then s
    else if ch !in s.subscriptions then
      var w := s.world.(nextRos := s.world.nextRos + 1,
                        rosChannel := s.world.rosChannel[s.world.nextRos := ch],
                        handled := s.world.handled[ch := []]);
      s.(subscriptions := s.subscriptions[ch := WithClient(Subscription(s.world.nextRos, {}, {}, map[]), client)],
         world := CatchUp(w, ch, None))
    else
      var sub := s.subscriptions[ch];
      s.(subscriptions := s.subscriptions[ch := WithClient(sub, client)],
         world := if sink.Some? then
           CatchUp(Log(s.world, ch, sink, Replays(order, sub.latchedMessages)), ch, sink)
         else s.world)
  }

  function Unsubscribe(s: State, ch: ChannelId, client: Client): State {
    if ch !in s.subscriptions then s
    else
      var sub := WithoutClient(s.subscriptions[ch], client);
      if sub.wsClientIds == {} && sub.gatewayClientIds == {} then
        s.(subscriptions := s.subscriptions - {ch},
           latchedChannels := s.latchedChannels - {ch},
           world := s.world.(onStack := s.world.onStack + {sub.ros}))
      else s.(subscriptions := s.subscriptions[ch := sub])
  }

  function Broadcast(m: RosMessage): Delivery {
    Delivery(if m.Latched() then Some(m.CallerId()) else None, m.content, false)
  }

  function HandleMessage(s: State, ch: ChannelId, m: RosMessage): State {
    if ch !in s.channels then s
    else if m.Latched() && ch in s.subscriptions then
      var sub := s.subscriptions[ch];
      var history := if ch in s.world.handled then s.world.handled[ch] else [];
      s.(subscriptions := s.subscriptions[ch := sub.(latchedMessages := sub.latchedMessages[m.CallerId() := m.content])],
         latchedChannels := s.latchedChannels + {ch},
         world := Log(s.world, ch, None, [Broadcast(m)]).(handled := s.world.handled[ch := history + [m]]))
    else s.(world := Log(s.world, ch, None, [Broadcast(m)]))
  }

  /** The (topic, schema name) key under which a channel is looked up in the latest topics. */
  function KeyOf(c: Channel): TopicAndDatatype {
    TopicAndDatatype(c.topic, if c.schema.Some? then c.schema.value else "")
  }

  function Stale(channels: map<ChannelId, Channel>, latest: set<TopicAndDatatype>): set<ChannelId> {
    set c | c in channels && KeyOf(channels[c]) !in latest
  }

  function Released(subscriptions: map<ChannelId, Subscription>, stale: set<ChannelId>): set<RosId> {
    set c | c in stale && c in subscriptions :: subscriptions[c].ros
  }

  function Collect(s: State, latest: set<TopicAndDatatype>): State {
    var stale := Stale(s.channels, latest);
    State(s.channels - stale, s.subscriptions - stale, s.latchedChannels - stale,
          s.world.(removed := s.world.removed + stale,
                   poll := Teardown(latest, stale, Released(s.subscriptions, stale))))
  }

  /** The channel advertises exactly this topic and type. */
  predicate Is(c: Channel, p: TopicAndDatatype) {
    c.topic == p.topic && c.schema == Some(p.typeName)
  }

  predicate Matched(channels: map<ChannelId, Channel>, p: TopicAndDatatype) {
    exists c :: c in channels && Is(channels[c], p)
  }

  /** What the outside decides: which types have a definition, which creations succeed. */
  datatype Oracle = Oracle(described: set<string>, creatable: set<TopicAndDatatype>)

  function NewChannel(p: TopicAndDatatype, o: Oracle): Channel {
    Channel(p.topic, if p.typeName in o.described then Some(p.typeName) else None)
  }

  datatype Advertised = Advertised(channels: map<ChannelId, Channel>, next: ChannelId)

  function AdvertiseOne(a: Advertised, p: TopicAndDatatype, o: Oracle): Advertised {
    if Matched(a.channels, p) || p !in o.creatable then a
    else Advertised(a.channels[a.next := NewChannel(p, o)], a.next + 1)
  }

  function AdvertiseAll(a: Advertised, latest: seq<TopicAndDatatype>, o: Oracle): Advertised {
    if latest == [] then a
    else AdvertiseOne(AdvertiseAll(a, latest[..|latest| - 1], o), latest[|latest| - 1], o)
  }

  function Advertise(s: State, latest: seq<TopicAndDatatype>, o: Oracle): State {
    var a := AdvertiseAll(Advertised(s.channels, s.world.nextChannel), latest, o);
    s.(channels := a.channels,
       world := s.world.(nextChannel := a.next,
                         open := s.world.open + (a.channels.Keys - s.channels.Keys),
                         poll := Idle))
  }

  // ---------------------------------------------------------------- the machine

  datatype Event =
    | SdkSubscribe(tok: Token, ch: ChannelId, client: Client, sink: Option<SinkId>)
    | SdkUnsubscribe(tok: Token)
    | OnSubscribe(tok: Token, sinkId: Option<SinkId>, order: seq<string>)
    | OnUnsubscribe(ch: ChannelId, client: Client)
    | OnUnsubscribeReturns(ros: RosId)
    | RosDispatch(ros: RosId, message: RosMessage)
    | RosHandle(ros: RosId, message: RosMessage)
    | PollCollect(latest: set<TopicAndDatatype>)
    | PollClose(ch: ChannelId)
    | PollRelease(ros: RosId)
    | PollAdvertise(topics: seq<TopicAndDatatype>, oracle: Oracle)

  /** One of the orders in which a hash set may be walked. */
  ghost predicate Lists(order: seq<TopicAndDatatype>, elements: set<TopicAndDatatype>) {
    && (forall p :: p in order <==> p in elements)
    && (forall i, j :: 0 <= i < j < |order| ==> order[i] != order[j])
  }

  /** No callback of this subscriber is running: what destroying a ros::Subscriber waits for. */
  ghost predicate Quiet(w: World, r: RosId) {
    forall m :: (r, m) !in w.inFlight
  }

  ghost predicate Enabled(s: State, e: Event) {
    var w := s.world;
    match e
    case SdkSubscribe(tok, ch, _, _) => tok !in w.tokens && ch in w.open
    case SdkUnsubscribe(tok) => tok in w.tokens
    case OnSubscribe(tok, sinkId, order) =>
      // The SDK records a subscription before it calls onSubscribe, with the sink of that session.
      && tok in w.tokens
      && (w.tokens[tok].live && sinkId.Some? ==> w.tokens[tok].sink == sinkId)
      && var ch := w.tokens[tok].channel;
         (ch in s.subscriptions ==> Enumerates(order, s.subscriptions[ch].latchedMessages))
    case OnUnsubscribe(_, _) => true
    case OnUnsubscribeReturns(r) => r in w.onStack && Quiet(w, r)
    case RosDispatch(r, _) => r in w.rosChannel
    case RosHandle(r, m) => r in w.rosChannel && (r, m) in w.inFlight
    case PollCollect(_) => w.poll.Idle?
    case PollClose(ch) => w.poll.Teardown? && ch in w.poll.closing
    case PollRelease(r) => w.poll.Teardown? && w.poll.closing == {} && r in w.poll.releasing && Quiet(w, r)
    case PollAdvertise(topics, _) =>
      w.poll.Teardown? && w.poll.closing == {} && w.poll.releasing == {} && Lists(topics, w.poll.latest)
  }

  ghost function Apply(s: State, e: Event): State
    requires Enabled(s, e)
  {
    var w := s.world;
    match e
    case SdkSubscribe(tok, ch, client, sink) =>
      s.(world := w.(tokens := w.tokens[tok := SdkSubscription(ch, client, sink, true, Missed(s, ch), [])]))
    case SdkUnsubscribe(tok) =>
      s.(world := w.(tokens := w.tokens[tok := w.tokens[tok].(live := false)]))
    case OnSubscribe(tok, sinkId, order) => Subscribe(s, tok, sinkId, order)
    case OnUnsubscribe(ch, client) => Unsubscribe(s, ch, client)
    case OnUnsubscribeReturns(r) =>
      s.(world := w.(onStack := w.onStack - {r}, rosChannel := w.rosChannel - {r}))
    case RosDispatch(r, m) => s.(world := w.(inFlight := w.inFlight + multiset{(r, m)}))
    case RosHandle(r, m) =>
      HandleMessage(s.(world := w.(inFlight := w.inFlight - multiset{(r, m)})), w.rosChannel[r], m)
    case PollCollect(latest) => Collect(s, latest)
    case PollClose(ch) =>
      // The SDK ends every subscription of a channel that it closes.
      s.(world := w.(open := w.open - {ch},
                     tokens := map t | t in w.tokens ::
                       if w.tokens[t].channel == ch then w.tokens[t].(live := false) else w.tokens[t],
                     poll := w.poll.(closing := w.poll.closing - {ch})))
    case PollRelease(r) =>
      s.(world := w.(rosChannel := w.rosChannel - {r}, poll := w.poll.(releasing := w.poll.releasing - {r})))
    case PollAdvertise(topics, oracle) => Advertise(s, topics, oracle)
  }

  /** Before the first poll: nothing is advertised; channel and subscriber ids may start anywhere. */
  function Start(nextChannel: ChannelId, nextRos: RosId): State {
    State(map[], map[], {},
          World(nextChannel, nextRos, {}, {}, map[], map[], {}, multiset{}, map[], Idle))
  }

  /** Every event of the run is enabled when its turn comes. */
  ghost predicate Legal(s: State, es: seq<Event>)
    decreases |es|
  {
    es == [] || (Enabled(s, es[0]) && Legal(Apply(s, es[0]), es[1..]))
  }

  ghost function Run(s: State, es: seq<Event>): State
    requires Legal(s, es)
    decreases |es|
  {
    if es == [] then s else Run(Apply(s, es[0]), es[1..])
  }
}
