/** What every interleaving of the channel machine keeps. */
module ChannelSafety {
  import opened Wrappers
  import opened ChannelModel

  // ---------------------------------------------------------------- histories

  /** The content of the last delivery made for a latched publisher. */
  function LastFrom(log: seq<Delivery>, publisher: string): Option<Cached> {
    if log == [] then None
    else if log[|log| - 1].publisher == Some(publisher) then Some(log[|log| - 1].content)
    else LastFrom(log[..|log| - 1], publisher)
  }

  /** The cache that a history of latched messages leaves: the last message of each publisher. */
  function CacheOf(history: seq<RosMessage>): map<string, Cached> {
    if history == [] then map[]
    else CacheOf(history[..|history| - 1])[history[|history| - 1].CallerId() := history[|history| - 1].content]
  }

  /** Message i is the last one of its publisher. */
  ghost predicate LastOf(history: seq<RosMessage>, i: int, publisher: string) {
    && 0 <= i < |history|
    && history[i].CallerId() == publisher
    && forall j :: i < j < |history| ==> history[j].CallerId() != publisher
  }

  /** CacheOf holds exactly the publishers that occur, each with its last message. */
  lemma {:induction false} CacheHoldsLast(history: seq<RosMessage>, publisher: string)
    ensures publisher in CacheOf(history) <==> exists i :: LastOf(history, i, publisher)
    ensures forall i :: LastOf(history, i, publisher) ==> CacheOf(history)[publisher] == history[i].content
  {
    if history != [] {
      var k := |history| - 1;
      var before := history[..k];
      CacheHoldsLast(before, publisher);
      if history[k].CallerId() == publisher {
        assert LastOf(history, k, publisher);
      } else {
        forall i | 0 <= i < k ensures LastOf(history, i, publisher) <==> LastOf(before, i, publisher) {
          assert history[i] == before[i];
        }
        assert !LastOf(history, k, publisher);
      }
    }
  }

  lemma LastAfterDelivery(log: seq<Delivery>, d: Delivery, publisher: string)
    ensures LastFrom(log + [d], publisher) == if d.publisher == Some(publisher) then Some(d.content) else LastFrom(log, publisher)
  {
    assert (log + [d])[..|log|] == log;
  }

  /** A replay sets the last delivery of every replayed publisher and leaves the others alone. */
  lemma {:induction false} LastAfterReplay(log: seq<Delivery>, order: seq<string>, cache: map<string, Cached>, publisher: string)
    requires forall c :: c in order ==> c in cache
    ensures LastFrom(log + Replays(order, cache), publisher)
         == if publisher in order then Some(cache[publisher]) else LastFrom(log, publisher)
  {
    if order == [] {
      assert log + Replays(order, cache) == log;
    } else {
      var k := |order| - 1;
      var last := Delivery(Some(order[k]), cache[order[k]], true);
      assert Replays(order, cache) == Replays(order[..k], cache) + [last];
      assert log + Replays(order, cache) == (log + Replays(order[..k], cache)) + [last];
      LastAfterDelivery(log + Replays(order[..k], cache), last, publisher);
      LastAfterReplay(log, order[..k], cache, publisher);
      assert order == order[..k] + [order[k]];
    }
  }

  // ---------------------------------------------------------------- the invariant

  /** Subscriptions belong to channels and have clients; the latched set is the non-empty caches. */
  ghost predicate Structure(s: State) {
    && (forall ch :: ch in s.subscriptions ==> ch in s.channels)
    && (forall ch :: ch in s.subscriptions ==>
          s.subscriptions[ch].wsClientIds != {} || s.subscriptions[ch].gatewayClientIds != {})
    && (forall ch :: ch in s.latchedChannels <==>
          ch in s.subscriptions && s.subscriptions[ch].latchedMessages != map[])
  }

  /** Each cache is what the latched messages handled since its subscription was created leave. */
  ghost predicate CacheAgrees(s: State) {
    forall ch :: ch in s.subscriptions ==>
      ch in s.world.handled && s.subscriptions[ch].latchedMessages == CacheOf(s.world.handled[ch])
  }

  ghost predicate UpToDate(log: seq<Delivery>, cache: map<string, Cached>) {
    forall c :: c in cache ==> LastFrom(log, c) == Some(cache[c])
  }

  /** What a client has been sent accounts for the part of its channel's history that it did not miss. */
  ghost predicate Delivered(s: State) {
    forall t :: t in s.world.tokens ==> Served(s, s.world.tokens[t])
  }

  ghost predicate Served(s: State, sub: SdkSubscription) {
    sub.live && sub.channel in s.subscriptions ==>
      sub.channel in s.world.handled && Accounts(sub.sent, sub.missed, s.world.handled[sub.channel])
  }

  /** A publisher's last delivery is its last message after the missed ones; of missed ones there is none. */
  ghost predicate Accounts(sent: seq<Delivery>, missed: nat, history: seq<RosMessage>) {
    && missed <= |history|
    && var got := CacheOf(history[missed..]);
       (forall c :: if c in got then LastFrom(sent, c) == Some(got[c]) else missed > 0 ==> LastFrom(sent, c) == None)
  }

  function Closing(p: Poll): set<ChannelId> {
    if p.Teardown? then p.closing else {}
  }

  function Releasing(p: Poll): set<RosId> {
    if p.Teardown? then p.releasing else {}
  }

  /** Ids are fresh; a channel is open at the SDK exactly while it is advertised or being closed. */
  ghost predicate Lifecycle(s: State) {
    && s.world.open == s.channels.Keys + Closing(s.world.poll)
    && s.channels.Keys !! s.world.removed
    && Closing(s.world.poll) <= s.world.removed
    && (forall ch :: ch in s.channels || ch in s.world.removed ==> ch < s.world.nextChannel)
    && (forall t :: t in s.world.tokens && s.world.tokens[t].live ==> s.world.tokens[t].channel in s.world.open)
  }

  function Held(s: State): set<RosId> {
    set ch | ch in s.subscriptions :: s.subscriptions[ch].ros
  }

  /** Each live ROS subscriber has one owner: a subscription, an onUnsubscribe, or the poll thread. */
  ghost predicate Owners(s: State) {
    && s.world.rosChannel.Keys == Held(s) + s.world.onStack + Releasing(s.world.poll)
    && Held(s) !! s.world.onStack
    && Held(s) !! Releasing(s.world.poll)
    && s.world.onStack !! Releasing(s.world.poll)
  }

  /** It belongs to the channel it was made for, and callbacks run for live subscribers only. */
  ghost predicate Belongs(s: State) {
    && (forall ch :: ch in s.subscriptions ==>
          s.subscriptions[ch].ros in s.world.rosChannel && s.world.rosChannel[s.subscriptions[ch].ros] == ch)
    && (forall r :: r in s.world.rosChannel ==> r < s.world.nextRos)
    && (forall r :: r in Releasing(s.world.poll) ==> r in s.world.rosChannel && s.world.rosChannel[r] in s.world.removed)
    && (forall r, m :: (r, m) in s.world.inFlight ==> r in s.world.rosChannel)
  }

  ghost predicate RosOwned(s: State) {
    Owners(s) && Belongs(s)
  }

  ghost predicate Inv(s: State) {
    Structure(s) && CacheAgrees(s) && Delivered(s) && Lifecycle(s) && RosOwned(s)
  }

  // ---------------------------------------------------------------- every event keeps it

  lemma StructureStep(s: State, e: Event)
    requires Structure(s) && Lifecycle(s) && Enabled(s, e)
    ensures Structure(Apply(s, e))
  {
    match e {
      case PollAdvertise(topics, oracle) =>
        AdvertiseGrows(Advertised(s.channels, s.world.nextChannel), topics, oracle);
      case RosHandle(r, m) =>
        StructureHandle(s.(world := s.world.(inFlight := s.world.inFlight - multiset{(r, m)})),
                        s.world.rosChannel[r], m);
      case OnUnsubscribe(ch, client) => StructureUnsubscribe(s, ch, client);
      case _ =>
    }
  }

  lemma StructureHandle(s: State, ch: ChannelId, m: RosMessage)
    requires Structure(s)
    ensures Structure(HandleMessage(s, ch, m))
  {
    var s' := HandleMessage(s, ch, m);
    if ch in s.channels && ch in s.subscriptions && m.Latched() {
      assert m.CallerId() in s'.subscriptions[ch].latchedMessages;
    }
  }

  lemma StructureUnsubscribe(s: State, ch: ChannelId, client: Client)
    requires Structure(s)
    ensures Structure(Unsubscribe(s, ch, client))
  {
  }

  lemma CacheMore(history: seq<RosMessage>, m: RosMessage)
    ensures CacheOf(history + [m]) == CacheOf(history)[m.CallerId() := m.content]
  {
    assert (history + [m])[..|history|] == history;
  }

  lemma CacheStep(s: State, e: Event)
    requires CacheAgrees(s) && Enabled(s, e)
    ensures CacheAgrees(Apply(s, e))
  {
    if e.OnSubscribe? {
      CacheSubscribe(s, e);
    } else if e.RosHandle? {
      CacheHandle(s.(world := s.world.(inFlight := s.world.inFlight - multiset{(e.ros, e.message)})),
                  s.world.rosChannel[e.ros], e.message);
    }
  }

  lemma CacheSubscribe(s: State, e: Event)
    requires CacheAgrees(s) && Enabled(s, e) && e.OnSubscribe?
    ensures CacheAgrees(Apply(s, e))
  {
  }

  lemma CacheHandle(s: State, ch: ChannelId, m: RosMessage)
    requires CacheAgrees(s)
    ensures CacheAgrees(HandleMessage(s, ch, m))
  {
    if ch in s.subscriptions {
      CacheMore(s.world.handled[ch], m);
    }
  }

  lemma DeliveredStep(s: State, e: Event)
    requires Delivered(s) && CacheAgrees(s) && Enabled(s, e)
    ensures Delivered(Apply(s, e))
  {
    match e {
      case OnSubscribe(tok, sinkId, order) => DeliveredSubscribe(s, tok, sinkId, order);
      case RosHandle(r, m) =>
        DeliveredHandle(s.(world := s.world.(inFlight := s.world.inFlight - multiset{(r, m)})), s.world.rosChannel[r], m);
      case SdkSubscribe(tok, ch, client, sink) =>
        if ch in s.subscriptions {
          assert s.world.handled[ch][|s.world.handled[ch]|..] == [];
        }
      case _ => DeliveredOther(s, e);
    }
  }

  lemma DeliveredOther(s: State, e: Event)
    requires Delivered(s) && Enabled(s, e) && !e.OnSubscribe? && !e.RosHandle? && !e.SdkSubscribe?
    ensures Delivered(Apply(s, e))
  {
  }

  lemma DeliveredSubscribe(s: State, tok: Token, sink: Option<SinkId>, order: seq<string>)
    requires Delivered(s) && CacheAgrees(s) && Enabled(s, OnSubscribe(tok, sink, order))
    ensures Delivered(Subscribe(s, tok, sink, order))
  {
    var ch := s.world.tokens[tok].channel;
    if ch in s.channels && ch in s.subscriptions && sink.Some? {
      forall t | t in s.world.tokens && s.world.tokens[t].sink == sink
        ensures Accounts(s.world.tokens[t].sent + Replays(order, s.subscriptions[ch].latchedMessages), 0, s.world.handled[ch])
      {
        ReplayAccounts(s.world.tokens[t].sent, order, s.world.handled[ch]);
      }
    }
  }

  lemma ReplayAccounts(sent: seq<Delivery>, order: seq<string>, history: seq<RosMessage>)
    requires Enumerates(order, CacheOf(history))
    ensures Accounts(sent + Replays(order, CacheOf(history)), 0, history)
  {
    assert history[0..] == history;
    forall c | c in CacheOf(history)
      ensures LastFrom(sent + Replays(order, CacheOf(history)), c) == Some(CacheOf(history)[c])
    {
      LastAfterReplay(sent, order, CacheOf(history), c);
    }
  }

  lemma DeliveredHandle(s: State, ch: ChannelId, m: RosMessage)
    requires Delivered(s)
    ensures Delivered(HandleMessage(s, ch, m))
  {
    var s' := HandleMessage(s, ch, m);
    forall t | t in s'.world.tokens ensures Served(s', s'.world.tokens[t]) {
      var sub := s.world.tokens[t];
      assert Served(s, sub);
      if sub.live && ch in s.channels && sub.channel == ch && ch in s.subscriptions {
        MessageAccounts(sub.sent, sub.missed, s.world.handled[ch], m);
      }
    }
  }

  lemma MessageAccounts(sent: seq<Delivery>, missed: nat, history: seq<RosMessage>, m: RosMessage)
    requires Accounts(sent, missed, history)
    ensures Accounts(sent + [Broadcast(m)], missed, if m.Latched() then history + [m] else history)
  {
    assert (history + [m])[missed..] == history[missed..] + [m];
    CacheMore(history[missed..], m);
    forall c ensures LastFrom(sent + [Broadcast(m)], c)
                  == if Broadcast(m).publisher == Some(c) then Some(m.content) else LastFrom(sent, c)
    {
      LastAfterDelivery(sent, Broadcast(m), c);
    }
  }

  lemma LifecycleStep(s: State, e: Event)
    requires Lifecycle(s) && Enabled(s, e)
    ensures Lifecycle(Apply(s, e))
  {
    match e {
      case PollAdvertise(topics, oracle) =>
        AdvertiseGrows(Advertised(s.channels, s.world.nextChannel), topics, oracle);
      case PollCollect(latest) => LifecycleCollect(s, latest);
      case OnSubscribe(tok, sinkId, order) => SubscribeKeepsTokens(s, e);
      case RosHandle(r, m) => HandleKeepsTokens(s, e);
      case _ => LifecycleOther(s, e);
    }
  }

  lemma LifecycleCollect(s: State, latest: set<TopicAndDatatype>)
    requires Lifecycle(s) && s.world.poll.Idle?
    ensures Lifecycle(Collect(s, latest))
  {
    var stale := Stale(s.channels, latest);
    assert (s.channels - stale).Keys == s.channels.Keys - stale;
    assert s.channels.Keys == (s.channels - stale).Keys + stale;
  }

  lemma LifecycleOther(s: State, e: Event)
    requires Lifecycle(s) && Enabled(s, e)
    requires !e.PollAdvertise? && !e.PollCollect? && !e.OnSubscribe? && !e.RosHandle?
    ensures Lifecycle(Apply(s, e))
  {
  }

  /** The same SDK subscriptions, on the same channels and sinks, live or not as before. */
  ghost predicate SameTokens(w: World, x: World) {
    && x.tokens.Keys == w.tokens.Keys
    && (forall t :: t in x.tokens ==> x.tokens[t].channel == w.tokens[t].channel)
    && (forall t :: t in x.tokens ==> x.tokens[t].live == w.tokens[t].live)
    && (forall t :: t in x.tokens ==> x.tokens[t].sink == w.tokens[t].sink)
  }

  lemma SubscribeKeepsTokens(s: State, e: Event)
    requires Enabled(s, e) && e.OnSubscribe?
    ensures SameTokens(s.world, Apply(s, e).world)
  {
  }

  lemma HandleKeepsTokens(s: State, e: Event)
    requires Enabled(s, e) && e.RosHandle?
    ensures SameTokens(s.world, Apply(s, e).world)
  {
  }

  lemma RosStep(s: State, e: Event)
    requires RosOwned(s) && Enabled(s, e)
    ensures RosOwned(Apply(s, e))
  {
    var s' := Apply(s, e);
    match e {
      case OnSubscribe(tok, _, _) => HeldAfterSubscribe(s, e);
      case OnUnsubscribe(ch, client) => HeldAfterUnsubscribe(s, ch, client);
      case PollCollect(latest) => HeldAfterCollect(s, latest);
      case RosHandle(r, m) => HeldAfterHandle(s, e);
      case _ => assert Held(s') == Held(s);
    }
  }

  lemma HeldAfterSubscribe(s: State, e: Event)
    requires RosOwned(s) && Enabled(s, e) && e.OnSubscribe?
    ensures RosOwned(Apply(s, e))
  {
    var ch := s.world.tokens[e.tok].channel;
    if ch in s.channels && ch !in s.subscriptions {
      HeldAfterFirst(s, e);
    } else {
      HeldAfterJoin(s, e);
    }
  }

  lemma HeldAfterFirst(s: State, e: Event)
    requires RosOwned(s) && Enabled(s, e) && e.OnSubscribe?
    requires var ch := s.world.tokens[e.tok].channel; ch in s.channels && ch !in s.subscriptions
    ensures RosOwned(Apply(s, e))
  {
    BelongsAfterFirst(s, e);
    HoldersAfterFirst(s, e);
  }

  lemma HoldersAfterFirst(s: State, e: Event)
    requires Enabled(s, e) && e.OnSubscribe?
    requires var ch := s.world.tokens[e.tok].channel; ch in s.channels && ch !in s.subscriptions
    ensures Held(Apply(s, e)) == Held(s) + {s.world.nextRos}
  {
    var s' := Apply(s, e);
    var ch := s.world.tokens[e.tok].channel;
    forall r ensures r in Held(s') <==> r in Held(s) + {s.world.nextRos} {
      if r in Held(s) {
        var c :| c in s.subscriptions && s.subscriptions[c].ros == r;
        assert s'.subscriptions[c].ros == r;
      }
      assert s'.subscriptions[ch].ros == s.world.nextRos;
    }
  }

  lemma BelongsAfterFirst(s: State, e: Event)
    requires RosOwned(s) && Enabled(s, e) && e.OnSubscribe?
    requires var ch := s.world.tokens[e.tok].channel; ch in s.channels && ch !in s.subscriptions
    ensures Belongs(Apply(s, e))
  {
  }

  lemma HeldAfterJoin(s: State, e: Event)
    requires RosOwned(s) && Enabled(s, e) && e.OnSubscribe?
    requires var ch := s.world.tokens[e.tok].channel; ch !in s.channels || ch in s.subscriptions
    ensures RosOwned(Apply(s, e))
  {
    SameHolders(s, Apply(s, e));
  }

  lemma HeldAfterHandle(s: State, e: Event)
    requires RosOwned(s) && Enabled(s, e) && e.RosHandle?
    ensures RosOwned(Apply(s, e))
  {
    SameHolders(s, Apply(s, e));
  }

  lemma SameHolders(s: State, s': State)
    requires s.subscriptions.Keys == s'.subscriptions.Keys
    requires forall c :: c in s.subscriptions ==> s'.subscriptions[c].ros == s.subscriptions[c].ros
    ensures Held(s) == Held(s')
  {
    forall r ensures r in Held(s) <==> r in Held(s') {
      if r in Held(s) {
        var c :| c in s.subscriptions && s.subscriptions[c].ros == r;
        assert s'.subscriptions[c].ros == r;
      }
    }
  }

  lemma HeldAfterUnsubscribe(s: State, ch: ChannelId, client: Client)
    requires RosOwned(s)
    ensures RosOwned(Unsubscribe(s, ch, client))
  {
    var s' := Unsubscribe(s, ch, client);
    if ch in s'.subscriptions || ch !in s.subscriptions {
      SameHolders(s, s');
    } else {
      var r0 := s.subscriptions[ch].ros;
      forall r ensures r in Held(s') <==> r in Held(s) - {r0} {
        if r in Held(s) && r != r0 {
          var c :| c in s.subscriptions && s.subscriptions[c].ros == r;
          assert c in s'.subscriptions && s'.subscriptions[c].ros == r;
        }
      }
    }
  }

  lemma HeldAfterCollect(s: State, latest: set<TopicAndDatatype>)
    requires RosOwned(s) && s.world.poll.Idle?
    ensures RosOwned(Collect(s, latest))
  {
    var s' := Collect(s, latest);
    var stale := Stale(s.channels, latest);
    var released := Released(s.subscriptions, stale);
    forall r ensures r in Held(s') <==> r in Held(s) && r !in released {
      if r in Held(s) && r !in released {
        var c :| c in s.subscriptions && s.subscriptions[c].ros == r;
        assert c in s'.subscriptions && s'.subscriptions[c].ros == r;
      }
    }
    assert released <= Held(s);
  }

  lemma {:induction false} AdvertiseGrows(a: Advertised, latest: seq<TopicAndDatatype>, o: Oracle)
    requires forall c :: c in a.channels ==> c < a.next
    ensures var b := AdvertiseAll(a, latest, o);
            && a.next <= b.next
            && a.channels.Keys <= b.channels.Keys
            && (forall c :: c in a.channels ==> b.channels[c] == a.channels[c])
            && (forall c :: c in b.channels && c !in a.channels ==> a.next <= c)
            && (forall c :: c in b.channels ==> c < b.next)
  {
    if latest != [] {
      AdvertiseGrows(a, latest[..|latest| - 1], o);
    }
  }

  lemma StepKeeps(s: State, e: Event)
    requires Inv(s) && Enabled(s, e)
    ensures Inv(Apply(s, e))
  {
    StructureStep(s, e);
    CacheStep(s, e);
    DeliveredStep(s, e);
    LifecycleStep(s, e);
    RosStep(s, e);
  }

  /** The invariant holds in every state that any interleaving reaches. */
  lemma {:induction false} RunKeeps(s: State, es: seq<Event>)
    requires Inv(s) && Legal(s, es)
    ensures Inv(Run(s, es))
    decreases |es|
  {
    if es != [] {
      StepKeeps(s, es[0]);
      RunKeeps(Apply(s, es[0]), es[1..]);
    }
  }
}
