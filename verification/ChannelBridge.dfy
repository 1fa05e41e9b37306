/** Ros1FoxgloveBridge: the methods that work on the channel and subscription maps. */
module ChannelBridge {
  import opened Wrappers
  import opened Sequences
  import opened ChannelModel
  import opened ChannelSafety
  import opened ChannelTheorems
  import opened Reconciliation

  class Ros1FoxgloveBridge {
    var channels: map<ChannelId, Channel>
    var subscriptions: map<ChannelId, Subscription>
    var latchedChannels: set<ChannelId>
    ghost var world: World

    ghost function View(): State
      reads this
    {
      State(channels, subscriptions, latchedChannels, world)
    }

    constructor (ghost nextChannel: ChannelId, ghost nextRos: RosId)
      ensures View() == Start(nextChannel, nextRos)
    {
      channels, subscriptions, latchedChannels := map[], map[], {};
      world := Start(nextChannel, nextRos).world;
    }

    /**
     The token names the SDK subscription on whose behalf the SDK makes this call; `subscriber` is
     the ros::Subscriber that roscpp would hand out next.
     */
    method OnSubscribe(channelId: ChannelId, clientId: ClientId, isGateway: bool, sinkId: Option<SinkId>,
                       subscriber: RosId, ghost tok: Token)
      returns (ghost order: seq<string>)
      requires subscriber == world.nextRos
      requires tok in world.tokens && world.tokens[tok].channel == channelId
      requires world.tokens[tok].client == Client(clientId, isGateway)
      requires world.tokens[tok].live && sinkId.Some? ==> world.tokens[tok].sink == sinkId
      modifies this
      ensures Enabled(old(View()), Event.OnSubscribe(tok, sinkId, order))
      ensures View() == Apply(old(View()), Event.OnSubscribe(tok, sinkId, order))
    {
      ghost var before := View();
      order := [];
      if channelId !in channels {
        if channelId in subscriptions {
          order := SomeOrder(subscriptions[channelId].latchedMessages.Keys);
        }
        return;
      }
      var sub;
      if channelId !in subscriptions {
        sub := NewSubscription(channelId, subscriber);
        world := CatchUp(world, channelId, None);
      } else {
        sub := subscriptions[channelId];
        if sinkId.Some? {
          order := ReplayLatched(channelId, sinkId, sub.latchedMessages);
          world := CatchUp(world, channelId, sinkId);
        } else {
          order := SomeOrder(sub.latchedMessages.Keys);
        }
      }
      if isGateway {
        sub := sub.(gatewayClientIds := sub.gatewayClientIds + {clientId});
      } else {
        sub := sub.(wsClientIds := sub.wsClientIds + {clientId});
      }
      subscriptions := subscriptions[channelId := sub];
    }

    /** NodeHandle::subscribe; the new subscriber has no clients and nothing cached. */
    method NewSubscription(channelId: ChannelId, subscriber: RosId) returns (sub: Subscription)
      modifies this`world
      ensures sub == Subscription(subscriber, {}, {}, map[])
      ensures world == old(world).(nextRos := subscriber + 1,
                                   rosChannel := old(world.rosChannel)[subscriber := channelId],
                                   handled := old(world.handled)[channelId := []])
    {
      sub := Subscription(subscriber, {}, {}, map[]);
      world := world.(nextRos := subscriber + 1, rosChannel := world.rosChannel[subscriber := channelId],
                      handled := world.handled[channelId := []]);
    }

    /** Sends the cached messages to one sink, in some order. */
    method ReplayLatched(channelId: ChannelId, sinkId: Option<SinkId>, cache: map<string, Cached>)
      returns (ghost order: seq<string>)
      modifies this`world
      ensures Enumerates(order, cache)
      ensures world == Log(old(world), channelId, sinkId, Replays(order, cache))
    {
      order := [];
      var todo := cache.Keys;
      LogNothing(world, channelId, sinkId);
      assert Replays(order, cache) == [];
      while todo != {}
        invariant todo <= cache.Keys
        invariant (forall c :: c in order <==> c in cache && c !in todo) && NoRepeats(order)
        invariant world == Log(old(world), channelId, sinkId, Replays(order, cache))
        decreases todo
      {
        var callerid :| callerid in todo;
        ghost var sent := Replays(order, cache);
        LogTwice(old(world), channelId, sinkId, sent, Delivery(Some(callerid), cache[callerid], true));
        order := order + [callerid];
        assert Replays(order, cache) == sent + [Delivery(Some(callerid), cache[callerid], true)];
        SendTo(channelId, sinkId, Delivery(Some(callerid), cache[callerid], true));
        todo := todo - {callerid};
      }
    }

    /** RawChannel::log, as far as clients can tell. */
    ghost method SendTo(channelId: ChannelId, sinkId: Option<SinkId>, d: Delivery)
      modifies this`world
      ensures world == Log(old(world), channelId, sinkId, [d])
    {
      world := Log(world, channelId, sinkId, [d]);
    }

    method OnUnsubscribe(channelId: ChannelId, clientId: ClientId, isGateway: bool)
      modifies this
      ensures View() == Apply(old(View()), Event.OnUnsubscribe(channelId, Client(clientId, isGateway)))
    {
      if channelId !in subscriptions {
        return;
      }
      var sub := subscriptions[channelId];
      if isGateway {
        sub := sub.(gatewayClientIds := sub.gatewayClientIds - {clientId});
      } else {
        sub := sub.(wsClientIds := sub.wsClientIds - {clientId});
      }
      subscriptions := subscriptions[channelId := sub];
      if sub.wsClientIds == {} && sub.gatewayClientIds == {} {
        world := world.(onStack := world.onStack + {sub.ros});
        subscriptions := subscriptions - {channelId};
        latchedChannels := latchedChannels - {channelId};
      }
    }

    method RosMessageHandler(channelId: ChannelId, message: RosMessage, ghost ros: RosId)
      requires ros in world.rosChannel && world.rosChannel[ros] == channelId
      requires (ros, message) in world.inFlight
      modifies this
      ensures View() == Apply(old(View()), RosHandle(ros, message))
    {
      world := world.(inFlight := world.inFlight - multiset{(ros, message)});
      if channelId !in channels {
        return;
      }
      ghost var latchedFrom := None;
      if message.header.Some? {
        var header := message.header.value;
        if "latching" in header && header["latching"] == "1" {
          var callerid := if "callerid" in header then header["callerid"] else "";
          latchedFrom := Some(callerid);
          if channelId in subscriptions {
            var sub := subscriptions[channelId];
            subscriptions := subscriptions[channelId := sub.(latchedMessages := sub.latchedMessages[callerid := message.content])];
            latchedChannels := latchedChannels + {channelId};
            world := world.(handled :=
              world.handled[channelId := (if channelId in world.handled then world.handled[channelId] else []) + [message]]);
          }
        }
      }
      SendTo(channelId, None, Delivery(latchedFrom, message.content, false));
    }

    /** Phase 1 of updateAdvertisedTopics: what is taken out of the maps is torn down later. */
    method CollectStale(latestTopics: set<TopicAndDatatype>)
      returns (channelsToClose: seq<ChannelId>, subscriptionsToRelease: seq<RosId>)
      requires world.poll.Idle?
      modifies this
      ensures View() == Apply(old(View()), PollCollect(latestTopics))
      ensures Collected(channelsToClose, subscriptionsToRelease, old(subscriptions), Stale(old(channels), latestTopics))
    {
      channelsToClose, subscriptionsToRelease := [], [];
      ghost var stale := Stale(channels, latestTopics);
      ghost var done: set<ChannelId> := {};
      var todo := channels.Keys;
      while todo != {}
        invariant todo <= channels.Keys
        invariant done == stale - todo
        invariant View() == Without(old(View()), done)
        invariant Collected(channelsToClose, subscriptionsToRelease, old(subscriptions), done)
        decreases todo
      {
        var channelId :| channelId in todo;
        var channel := channels[channelId];
        var schemaName := if channel.schema.Some? then channel.schema.value else "";
        if TopicAndDatatype(channel.topic, schemaName) !in latestTopics {
          WithoutMore(old(View()), done, channelId);
          CollectedMore(channelsToClose, subscriptionsToRelease, old(subscriptions), done, channelId);
          if channelId in subscriptions {
            subscriptionsToRelease := subscriptionsToRelease + [subscriptions[channelId].ros];
            subscriptions := subscriptions - {channelId};
          }
          latchedChannels := latchedChannels - {channelId};
          channelsToClose := channelsToClose + [channelId];
          channels := channels - {channelId};
          done := done + {channelId};
        }
        todo := todo - {channelId};
      }
      assert done == stale;
      world := Collect(old(View()), latestTopics).world;
    }

    /** Phase 2 of updateAdvertisedTopics: each close ends the SDK subscriptions of its channel. */
    method CloseRemoved(channelsToClose: seq<ChannelId>) returns (ghost steps: seq<Event>)
      requires world.poll.Teardown? && (forall c :: c in channelsToClose <==> c in world.poll.closing)
      requires NoRepeats(channelsToClose)
      modifies this`world
      ensures NoRound(steps) && Legal(old(View()), steps) && View() == Run(old(View()), steps)
      ensures world.poll == old(world.poll).(closing := {})
      ensures world.inFlight == old(world.inFlight)
    {
      ghost var before := View();
      steps := [];
      for i := 0 to |channelsToClose|
        invariant NoRound(steps) && Legal(before, steps) && View() == Run(before, steps)
        invariant world.poll == old(world.poll).(closing := set c | c in channelsToClose[i..])
        invariant world.inFlight == old(world.inFlight)
      {
        var channelId := channelsToClose[i];
        assert channelsToClose[i..] == [channelId] + channelsToClose[i + 1..];
        RunSnoc(before, steps, PollClose(channelId));
        steps := steps + [PollClose(channelId)];
        world := Apply(View(), PollClose(channelId)).world;
      }
    }

    /**
     The rest of phase 2: destroying each subscriber waits for its running callbacks, which find
     their channel gone and do nothing.
     */
    method ReleaseSubscriptions(subscriptionsToRelease: seq<RosId>) returns (ghost steps: seq<Event>)
      requires Inv(View()) && world.poll.Teardown? && world.poll.closing == {}
      requires forall r :: r in subscriptionsToRelease <==> r in world.poll.releasing
      requires NoRepeats(subscriptionsToRelease)
      modifies this`world
      ensures NoRound(steps) && Legal(old(View()), steps) && View() == Run(old(View()), steps)
      ensures world.poll == old(world.poll).(releasing := {})
    {
      ghost var before := View();
      steps := [];
      for i := 0 to |subscriptionsToRelease|
        invariant Happened(before, steps)
        invariant world.poll == before.world.poll.(releasing := set r | r in subscriptionsToRelease[i..])
      {
        var ros := subscriptionsToRelease[i];
        assert subscriptionsToRelease[i..] == [ros] + subscriptionsToRelease[i + 1..];
        steps := ReleaseOne(ros, before, steps);
      }
    }

    ghost method ReleaseOne(ros: RosId, before: State, sofar: seq<Event>) returns (steps: seq<Event>)
      requires Happened(before, sofar) && world.poll.Teardown? && world.poll.closing == {} && ros in world.poll.releasing
      modifies this`world
      ensures Happened(before, steps)
      ensures world.poll == old(world.poll).(releasing := old(world.poll.releasing) - {ros})
    {
      steps := AwaitCallbacks(ros, before, sofar);
      steps := OneMoreEvent(before, steps, PollRelease(ros));
    }

    /** The events have led from that state to the present one, which satisfies the invariant. */
    ghost predicate Happened(before: State, steps: seq<Event>)
      reads this
    {
      NoRound(steps) && Legal(before, steps) && View() == Run(before, steps) && Inv(View())
    }

    /** An event that concerns nothing but the world. */
    ghost method OneMoreEvent(before: State, sofar: seq<Event>, e: Event) returns (steps: seq<Event>)
      requires Happened(before, sofar) && Enabled(View(), e) && !e.PollCollect? && !e.PollAdvertise?
      requires Apply(View(), e) == View().(world := Apply(View(), e).world)
      modifies this`world
      ensures steps == sofar + [e] && world == Apply(old(View()), e).world && Happened(before, steps)
    {
      RunSnoc(before, sofar, e);
      StepKeeps(View(), e);
      steps := sofar + [e];
      world := Apply(View(), e).world;
    }

    ghost method AwaitCallbacks(ros: RosId, before: State, sofar: seq<Event>) returns (steps: seq<Event>)
      requires Happened(before, sofar) && world.poll.Teardown? && ros in world.poll.releasing
      modifies this`world
      ensures Happened(before, steps) && world.poll == old(world.poll) && Quiet(world, ros)
    {
      steps := sofar;
      while exists m :: (ros, m) in world.inFlight
        invariant Happened(before, steps) && world.poll == old(world.poll)
        decreases |world.inFlight|
      {
        var m :| (ros, m) in world.inFlight;
        assert ros in world.rosChannel && world.rosChannel[ros] !in channels;
        steps := OneMoreEvent(before, steps, RosHandle(ros, m));
      }
    }

    /** Phase 3 of updateAdvertisedTopics. */
    method AdvertiseNew(latestTopics: seq<TopicAndDatatype>, oracle: Oracle, nextId: ChannelId)
      requires Enabled(View(), PollAdvertise(latestTopics, oracle)) && nextId == world.nextChannel
      modifies this
      ensures View() == Apply(old(View()), PollAdvertise(latestTopics, oracle))
    {
      var next := nextId;
      for i := 0 to |latestTopics|
        invariant Advertised(channels, next) == AdvertiseAll(Advertised(old(channels), nextId), latestTopics[..i], oracle)
        invariant subscriptions == old(subscriptions) && latchedChannels == old(latchedChannels) && world == old(world)
      {
        assert latestTopics[..i + 1][..i] == latestTopics[..i];
        var topic := latestTopics[i];
        if exists c :: c in channels && channels[c].topic == topic.topic && channels[c].schema == Some(topic.typeName) {
          assert exists c :: c in channels && Is(channels[c], topic);
          continue;
        }
        assert !Matched(channels, topic);
        var schema := if topic.typeName in oracle.described then Some(topic.typeName) else None;
        if topic !in oracle.creatable {
          continue;
        }
        channels := channels[next := Channel(topic.topic, schema)];
        next := next + 1;
      }
      assert latestTopics[..|latestTopics|] == latestTopics;
      world := Advertise(old(View()), latestTopics, oracle).world;
    }

    /**
     All of updateAdvertisedTopics, in a state that some run reaches, with the callbacks that it
     waits for and no other thread in between (RoundUnderInterference has the interleavings): the
     channels become those of a round over the permitted topics.
     */
    method UpdateAdvertisedTopics(topics: seq<TopicAndDatatype>, whitelist: string -> bool, oracle: Oracle, nextId: ChannelId)
      returns (latestTopics: seq<TopicAndDatatype>)
      requires Reachable(View()) && world.poll.Idle? && nextId == world.nextChannel
      modifies this
      ensures Reachable(View()) && world.poll.Idle?
      ensures Lists(latestTopics, set p | p in topics && whitelist(p.topic))
      ensures channels == Round(Advertised(old(channels), nextId), latestTopics, oracle).channels
      ensures Reconciled(channels, latestTopics)
          <==> ((forall p :: p in latestTopics ==> Offers(old(channels), p) || Advertisable(oracle, p))
                && !SchemalessSurvivor(old(channels), latestTopics))
      ensures forall c :: c in old(channels) && Listed(old(channels)[c], latestTopics) ==>
                c in channels && channels[c] == old(channels)[c]
    {
      ghost var before := View();
      ReachableInv(before);
      latestTopics := PermittedTopics(topics, whitelist);
      assert Elements(latestTopics) == set p | p in topics && whitelist(p.topic);
      ghost var steps := RemoveStale(Elements(latestTopics));
      ReachStep(before, PollCollect(Elements(latestTopics)));
      ReachRun(Collect(before, Elements(latestTopics)), steps);
      OthersKeepChannels(Collect(before, Elements(latestTopics)), steps);
      ReachStep(View(), PollAdvertise(latestTopics, oracle));
      RoundUnderInterference(before, steps, latestTopics, oracle);
      AdvertiseNew(latestTopics, oracle, nextId);
    }

    /** Phases 1 and 2; afterwards phase 3 may begin. */
    method RemoveStale(latestTopics: set<TopicAndDatatype>) returns (ghost steps: seq<Event>)
      requires Inv(View()) && world.poll.Idle?
      modifies this
      ensures NoRound(steps) && Legal(Collect(old(View()), latestTopics), steps)
      ensures View() == Run(Collect(old(View()), latestTopics), steps)
      ensures world.poll == Teardown(latestTopics, {}, {})
    {
      StepKeeps(View(), PollCollect(latestTopics));
      var channelsToClose, subscriptionsToRelease := CollectStale(latestTopics);
      ghost var collected := View();
      ghost var closes := CloseRemoved(channelsToClose);
      RunKeeps(collected, closes);
      ghost var releases := ReleaseSubscriptions(subscriptionsToRelease);
      RunThen(collected, closes, releases);
      steps := closes + releases;
    }

    /** The reported topics that the whitelist lets through, each pair once. */
    method PermittedTopics(topics: seq<TopicAndDatatype>, whitelist: string -> bool) returns (latestTopics: seq<TopicAndDatatype>)
      ensures Lists(latestTopics, set p | p in topics && whitelist(p.topic))
    {
      latestTopics := [];
      for i := 0 to |topics|
        invariant Lists(latestTopics, set p | p in topics[..i] && whitelist(p.topic))
      {
        assert topics[..i + 1] == topics[..i] + [topics[i]];
        if whitelist(topics[i].topic) && topics[i] !in latestTopics {
          latestTopics := latestTopics + [topics[i]];
        }
      }
      assert topics[..|topics|] == topics;
    }

    /**
     Reliable exactly if the topic is configured so, or the channel's present ROS subscription has
     handled a latched message.
     */
    method ClassifyRemoteAccessQos(channelId: ChannelId, topicIsReliable: bool) returns (reliable: bool)
      ensures reliable <==> topicIsReliable || channelId in latchedChannels
      ensures Reachable(View()) ==>
                (reliable
                 <==> (topicIsReliable
                       || (channelId in subscriptions && channelId in world.handled && world.handled[channelId] != [])))
    {
      if Reachable(View()) {
        LatchedIffSeen(View(), channelId);
      }
      if topicIsReliable {
        return true;
      }
      reliable := channelId in latchedChannels;
    }
  }

  /** No two subscriptions share a ros::Subscriber. */
  ghost predicate Apart(subscriptions: map<ChannelId, Subscription>) {
    forall c, d :: c in subscriptions && d in subscriptions && subscriptions[c].ros == subscriptions[d].ros ==> c == d
  }

  /** Some enumeration of a finite set of caller ids. */
  ghost function SomeOrder(keys: set<string>): (order: seq<string>)
    ensures (forall c :: c in order <==> c in keys) && NoRepeats(order)
  {
    if keys == {} then [] else var c :| c in keys; SomeOrder(keys - {c}) + [c]
  }

  /** The maps after these channels have been dropped. */
  function Without(s: State, done: set<ChannelId>): State {
    State(s.channels - done, s.subscriptions - done, s.latchedChannels - done, s.world)
  }

  lemma WithoutMore(s: State, done: set<ChannelId>, c: ChannelId)
    ensures var t := Without(s, done);
            Without(s, done + {c}) == State(t.channels - {c}, t.subscriptions - {c}, t.latchedChannels - {c}, s.world)
    ensures c !in s.subscriptions ==> Without(s, done).subscriptions - {c} == Without(s, done).subscriptions
  {
  }

  /** The lists hold each dropped channel once, and the subscribers of those that had one. */
  ghost predicate Collected(close: seq<ChannelId>, release: seq<RosId>, subscriptions: map<ChannelId, Subscription>,
                            done: set<ChannelId>)
  {
    && (forall c :: c in close <==> c in done)
    && NoRepeats(close)
    && (forall r :: r in release <==> r in Released(subscriptions, done))
    && (Apart(subscriptions) ==> NoRepeats(release))
  }

  lemma CollectedMore(close: seq<ChannelId>, release: seq<RosId>, subscriptions: map<ChannelId, Subscription>,
                      done: set<ChannelId>, c: ChannelId)
    requires Collected(close, release, subscriptions, done) && c !in done
    ensures Collected(close + [c], if c in subscriptions then release + [subscriptions[c].ros] else release,
                      subscriptions, done + {c})
  {
    ReleasedMore(subscriptions, done, c);
    if c in subscriptions && Apart(subscriptions) {
      assert subscriptions[c].ros !in Released(subscriptions, done);
    }
  }

  lemma ReleasedMore(subscriptions: map<ChannelId, Subscription>, done: set<ChannelId>, c: ChannelId)
    ensures Released(subscriptions, done + {c})
         == Released(subscriptions, done) + if c in subscriptions then {subscriptions[c].ros} else {}
  {
  }
}
