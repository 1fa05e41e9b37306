/** The promises of the channel machine, read off whole runs. */
module ChannelTheorems {
  import opened Wrappers
  import opened Sequences
  import opened ChannelModel
  import opened ChannelSafety

  // ---------------------------------------------------------------- runs

  lemma {:induction false} RunSnoc(s: State, es: seq<Event>, e: Event)
    requires Legal(s, es) && Enabled(Run(s, es), e)
    ensures Legal(s, es + [e]) && Run(s, es + [e]) == Apply(Run(s, es), e)
    decreases |es|
  {
    if es == [] {
      assert [e][1..] == [];
    } else {
      assert (es + [e])[1..] == es[1..] + [e];
      RunSnoc(Apply(s, es[0]), es[1..], e);
    }
  }

  lemma {:induction false} RunThen(s: State, es: seq<Event>, fs: seq<Event>)
    requires Legal(s, es) && Legal(Run(s, es), fs)
    ensures Legal(s, es + fs) && Run(s, es + fs) == Run(Run(s, es), fs)
    decreases |es|
  {
    if es == [] {
      assert es + fs == fs;
    } else {
      assert (es + fs)[1..] == es[1..] + fs;
      RunThen(Apply(s, es[0]), es[1..], fs);
    }
  }

  ghost predicate ReachedBy(s: State, nextChannel: ChannelId, nextRos: RosId, es: seq<Event>) {
    Legal(Start(nextChannel, nextRos), es) && Run(Start(nextChannel, nextRos), es) == s
  }

  /** Some interleaving leads from an empty bridge to this state. */
  ghost predicate Reachable(s: State) {
    exists nextChannel, nextRos, es :: ReachedBy(s, nextChannel, nextRos, es)
  }

  lemma ReachStep(s: State, e: Event)
    requires Reachable(s) && Enabled(s, e)
    ensures Reachable(Apply(s, e))
  {
    var c, r, es :| ReachedBy(s, c, r, es);
    RunSnoc(Start(c, r), es, e);
    assert ReachedBy(Apply(s, e), c, r, es + [e]);
  }

  lemma {:induction false} ReachRun(s: State, es: seq<Event>)
    requires Reachable(s) && Legal(s, es)
    ensures Reachable(Run(s, es))
    decreases |es|
  {
    if es != [] {
      ReachStep(s, es[0]);
      ReachRun(Apply(s, es[0]), es[1..]);
    }
  }

  lemma ReachableInv(s: State)
    requires Reachable(s)
    ensures Inv(s)
  {
    var c, r, es :| ReachedBy(s, c, r, es);
    RunKeeps(Start(c, r), es);
  }

  /** Structural invariant, between any two critical sections of any run. */
  lemma StructureAlways(s: State)
    requires Reachable(s)
    ensures s.subscriptions.Keys <= s.channels.Keys
    ensures forall ch :: ch in s.subscriptions ==>
              s.subscriptions[ch].wsClientIds != {} || s.subscriptions[ch].gatewayClientIds != {}
    ensures s.latchedChannels == set ch | ch in s.subscriptions && s.subscriptions[ch].latchedMessages != map[]
  {
    ReachableInv(s);
  }

  /** The classifier's set holds a channel exactly if its subscription has handled a latched message. */
  lemma LatchedIffSeen(s: State, ch: ChannelId)
    requires Reachable(s)
    ensures ch in s.latchedChannels <==> ch in s.subscriptions && ch in s.world.handled && s.world.handled[ch] != []
  {
    ReachableInv(s);
    if ch in s.subscriptions && s.world.handled[ch] != [] {
      var h := s.world.handled[ch];
      assert h[|h| - 1].CallerId() in CacheOf(h);
    }
  }

  // ---------------------------------------------------------------- recorded clients

  ghost predicate Recorded(s: State, ch: ChannelId, c: Client) {
    && ch in s.subscriptions
    && c.id in (if c.isGateway then s.subscriptions[ch].gatewayClientIds else s.subscriptions[ch].wsClientIds)
  }

  /**
   A client is recorded for a channel exactly from its onSubscribe on an advertised channel until
   its own onUnsubscribe, or until the channel is removed; nobody else's call changes that.
   */
  lemma RecordedStep(s: State, e: Event, ch: ChannelId, c: Client)
    requires Structure(s) && Enabled(s, e)
    ensures Recorded(Apply(s, e), ch, c)
        <==> ((e.OnSubscribe? && s.world.tokens[e.tok].channel == ch && s.world.tokens[e.tok].client == c
               && ch in s.channels)
              || (Recorded(s, ch, c) && e != OnUnsubscribe(ch, c)
                  && !(e.PollCollect? && ch in Stale(s.channels, e.latest))))
  {
    match e {
      case OnUnsubscribe(other, client) => RecordedAfterUnsubscribe(s, other, client, ch, c);
      case OnSubscribe(_, _, _) => RecordedAfterSubscribe(s, e, ch, c);
      case RosHandle(_, _) => RecordedAfterHandling(s, e, ch, c);
      case _ =>
    }
  }

  lemma RecordedAfterSubscribe(s: State, e: Event, ch: ChannelId, c: Client)
    requires Structure(s) && Enabled(s, e) && e.OnSubscribe?
    ensures Recorded(Apply(s, e), ch, c)
        <==> ((s.world.tokens[e.tok].channel == ch && s.world.tokens[e.tok].client == c && ch in s.channels)
              || Recorded(s, ch, c))
  {
    assert ch != s.world.tokens[e.tok].channel ==> (ch in Apply(s, e).subscriptions <==> ch in s.subscriptions);
  }

  lemma RecordedAfterHandling(s: State, e: Event, ch: ChannelId, c: Client)
    requires Enabled(s, e) && e.RosHandle?
    ensures Recorded(Apply(s, e), ch, c) <==> Recorded(s, ch, c)
  {
  }

  lemma RecordedAfterUnsubscribe(s: State, other: ChannelId, client: Client, ch: ChannelId, c: Client)
    ensures Recorded(Unsubscribe(s, other, client), ch, c)
        <==> Recorded(s, ch, c) && !(other == ch && client == c)
  {
    if Recorded(s, ch, c) && other == ch && client != c {
      var sub := WithoutClient(s.subscriptions[ch], client);
      assert c.id in (if c.isGateway then sub.gatewayClientIds else sub.wsClientIds);
    }
  }

  lemma SubscriberStep(s: State, e: Event, ch: ChannelId)
    requires Inv(s) && Enabled(s, e) && ch in s.subscriptions && ch in Apply(s, e).subscriptions
    ensures Apply(s, e).subscriptions[ch].ros == s.subscriptions[ch].ros
    ensures ch in Apply(s, e).channels && Apply(s, e).channels[ch] == s.channels[ch]
  {
    match e {
      case PollAdvertise(topics, oracle) => AdvertiseGrows(Advertised(s.channels, s.world.nextChannel), topics, oracle);
      case RosHandle(_, _) => SubscriberAfterHandling(s, e, ch);
      case OnUnsubscribe(other, client) =>
        assert other != ch ==> Unsubscribe(s, other, client).subscriptions[ch] == s.subscriptions[ch];
      case _ =>
    }
  }

  lemma SubscriberAfterHandling(s: State, e: Event, ch: ChannelId)
    requires Inv(s) && Enabled(s, e) && e.RosHandle? && ch in s.subscriptions
    ensures ch in Apply(s, e).subscriptions && Apply(s, e).subscriptions[ch].ros == s.subscriptions[ch].ros
    ensures Apply(s, e).channels == s.channels
  {
  }

  /** While one client stays, the one ROS subscriber of its channel stays, whatever the others do. */
  lemma {:induction false} SubscriptionShared(s: State, es: seq<Event>, ch: ChannelId, c: Client)
    requires Inv(s) && Legal(s, es) && Recorded(s, ch, c)
    requires forall e :: e in es ==> e != OnUnsubscribe(ch, c) && (e.PollCollect? ==> KeyOf(s.channels[ch]) in e.latest)
    ensures var t := Run(s, es);
            && Recorded(t, ch, c) && t.subscriptions[ch].ros == s.subscriptions[ch].ros
            && t.subscriptions[ch].ros in t.world.rosChannel
    decreases |es|
  {
    if es != [] {
      assert es[0] in es && forall e :: e in es[1..] ==> e in es;
      StepKeeps(s, es[0]);
      RecordedStep(s, es[0], ch, c);
      SubscriberStep(s, es[0], ch);
      SubscriptionShared(Apply(s, es[0]), es[1..], ch, c);
    }
  }

  // ---------------------------------------------------------------- what is sent

  /** What one event sends to one SDK subscription. */
  ghost function SentBy(s: State, e: Event, tok: Token): seq<Delivery>
    requires Enabled(s, e) && tok in s.world.tokens
  {
    var sub := s.world.tokens[tok];
    if !sub.live || sub.channel !in s.channels then []
    else if e.RosHandle? && s.world.rosChannel[e.ros] == sub.channel then [Broadcast(e.message)]
    else if e.OnSubscribe? && s.world.tokens[e.tok].channel == sub.channel && sub.channel in s.subscriptions
      && e.sinkId.Some? && e.sinkId == sub.sink then Replays(e.order, s.subscriptions[sub.channel].latchedMessages)
    else []
  }

  /**
   A client of an advertised channel gets every message handled there, latched or not, whether or
   not its onSubscribe has run, and the cache whenever someone joins at its sink; and nothing else.
   */
  lemma SentStep(s: State, e: Event, tok: Token)
    requires Enabled(s, e) && tok in s.world.tokens
    ensures tok in Apply(s, e).world.tokens
    ensures Apply(s, e).world.tokens[tok].sent == s.world.tokens[tok].sent + SentBy(s, e, tok)
  {
    if e.RosHandle? {
      SentByHandling(s, e, tok);
    } else if e.OnSubscribe? {
      SentByJoining(s, e, tok);
    }
  }

  lemma SentByHandling(s: State, e: Event, tok: Token)
    requires Enabled(s, e) && tok in s.world.tokens && e.RosHandle?
    ensures tok in Apply(s, e).world.tokens
    ensures Apply(s, e).world.tokens[tok].sent == s.world.tokens[tok].sent + SentBy(s, e, tok)
  {
  }

  lemma SentByJoining(s: State, e: Event, tok: Token)
    requires Enabled(s, e) && tok in s.world.tokens && e.OnSubscribe?
    ensures tok in Apply(s, e).world.tokens
    ensures Apply(s, e).world.tokens[tok].sent == s.world.tokens[tok].sent + SentBy(s, e, tok)
  {
  }

  ghost function HandledBy(s: State, e: Event, ch: ChannelId): seq<RosMessage>
    requires Enabled(s, e)
  {
    if e.RosHandle? && s.world.rosChannel[e.ros] == ch then [e.message] else []
  }

  /** The messages handled on a channel in a run. */
  ghost function HandledOn(s: State, es: seq<Event>, ch: ChannelId): seq<RosMessage>
    requires Legal(s, es)
    decreases |es|
  {
    if es == [] then []
    else HandledBy(s, es[0], ch) + HandledOn(Apply(s, es[0]), es[1..], ch)
  }

  function Broadcasts(ms: seq<RosMessage>): seq<Delivery> {
    seq(|ms|, i requires 0 <= i < |ms| => Broadcast(ms[i]))
  }

  /** Without what came from the cache. */
  function Direct(ds: seq<Delivery>): seq<Delivery> {
    if ds == [] then []
    else Direct(ds[..|ds| - 1]) + if ds[|ds| - 1].replayed then [] else [ds[|ds| - 1]]
  }

  lemma {:induction false} DirectAppend(ds: seq<Delivery>, more: seq<Delivery>)
    ensures Direct(ds + more) == Direct(ds) + Direct(more)
  {
    if more == [] {
      assert ds + more == ds;
    } else {
      assert (ds + more)[..|ds + more| - 1] == ds + more[..|more| - 1];
      DirectAppend(ds, more[..|more| - 1]);
    }
  }

  lemma {:induction false} ReplaysAreNotDirect(order: seq<string>, cache: map<string, Cached>)
    requires forall c :: c in order ==> c in cache
    ensures Direct(Replays(order, cache)) == []
  {
    if order != [] {
      var k := |order| - 1;
      assert Replays(order, cache)[..k] == Replays(order[..k], cache);
      ReplaysAreNotDirect(order[..k], cache);
    }
  }

  /** The connection header says that the publisher latches, and names it c; an unnamed one is "". */
  predicate LatchedFrom(header: Option<map<string, string>>, c: string) {
    && header.Some?
    && ("latching", "1") in header.value.Items
    && (if "callerid" in header.value.Keys then ("callerid", c) in header.value.Items else c == "")
  }

  /**
   From its SDK subscription on, before and after its onSubscribe, as long as it stands and the
   channel is advertised, a client gets every message handled on the channel, latched or not,
   exactly once, in order and with its content, and besides these only replays from the cache.
   */
  lemma EveryMessageOnce(s: State, es: seq<Event>, tok: Token)
    requires Inv(s) && Legal(s, es) && tok in s.world.tokens && s.world.tokens[tok].channel in s.channels
    requires var t := Run(s, es);
             && tok in t.world.tokens && t.world.tokens[tok].live && s.world.tokens[tok].channel in t.channels
    ensures Carries(Direct(s.world.tokens[tok].sent), Direct(Run(s, es).world.tokens[tok].sent),
                    HandledOn(s, es, s.world.tokens[tok].channel))
  {
    DirectIsHandled(s, es, tok);
    BroadcastsCarry(Direct(s.world.tokens[tok].sent), HandledOn(s, es, s.world.tokens[tok].channel));
  }

  /** The deliveries after `before` are these messages, each once, in order, whole, and with its latching publisher. */
  ghost predicate Carries(before: seq<Delivery>, after: seq<Delivery>, ms: seq<RosMessage>) {
    && |after| == |before| + |ms| && before <= after
    && forall i :: 0 <= i < |ms| ==>
         var d := after[|before| + i];
         && d.content == ms[i].content && !d.replayed
         && forall c :: d.publisher == Some(c) <==> LatchedFrom(ms[i].header, c)
  }

  lemma BroadcastsCarry(before: seq<Delivery>, ms: seq<RosMessage>)
    ensures Carries(before, before + Broadcasts(ms), ms)
  {
    forall i | 0 <= i < |ms| ensures (before + Broadcasts(ms))[|before| + i] == Broadcast(ms[i]) {}
    forall i, c | 0 <= i < |ms| ensures Broadcast(ms[i]).publisher == Some(c) <==> LatchedFrom(ms[i].header, c) {}
  }

  lemma {:induction false} DirectIsHandled(s: State, es: seq<Event>, tok: Token)
    requires Inv(s) && Legal(s, es) && tok in s.world.tokens && s.world.tokens[tok].channel in s.channels
    requires var t := Run(s, es);
             && tok in t.world.tokens && t.world.tokens[tok].live && s.world.tokens[tok].channel in t.channels
    ensures Direct(Run(s, es).world.tokens[tok].sent)
         == Direct(s.world.tokens[tok].sent) + Broadcasts(HandledOn(s, es, s.world.tokens[tok].channel))
    decreases |es|
  {
    var sub := s.world.tokens[tok];
    if es == [] {
      assert Direct(sub.sent) + [] == Direct(sub.sent);
    } else {
      var s1 := Apply(s, es[0]);
      StepKeeps(s, es[0]);
      TokenStep(s, es[0], tok);
      StillThere(s, es, tok);
      DirectIsHandled(s1, es[1..], tok);
      OneMessageOnce(s, es[0], tok);
      BroadcastsAppend(HandledBy(s, es[0], sub.channel), HandledOn(s1, es[1..], sub.channel));
      Associative(Direct(sub.sent), Broadcasts(HandledBy(s, es[0], sub.channel)),
                  Broadcasts(HandledOn(s1, es[1..], sub.channel)));
    }
  }

  /** The messages of publishers that latch. */
  function LatchedOf(ms: seq<RosMessage>): seq<RosMessage> {
    if ms == [] then []
    else
      var header := ms[0].header;
      (if header.Some? && ("latching", "1") in header.value.Items then [ms[0]] else []) + LatchedOf(ms[1..])
  }

  /** The channel stays subscribed to throughout the run. */
  ghost predicate StaysSubscribed(s: State, es: seq<Event>, ch: ChannelId)
    requires Legal(s, es)
    decreases |es|
  {
    ch in s.subscriptions && (es == [] || StaysSubscribed(Apply(s, es[0]), es[1..], ch))
  }

  /** As long as a channel stays subscribed to, every latched message handled on it is cached, and no other. */
  lemma {:induction false} CacheFollows(s: State, es: seq<Event>, ch: ChannelId)
    requires Inv(s) && Legal(s, es) && StaysSubscribed(s, es, ch)
    ensures Inv(Run(s, es)) && ch in Run(s, es).subscriptions && ch in s.world.handled && ch in Run(s, es).world.handled
    ensures Run(s, es).world.handled[ch] == s.world.handled[ch] + LatchedOf(HandledOn(s, es, ch))
    ensures Run(s, es).subscriptions[ch].latchedMessages == CacheOf(s.world.handled[ch] + LatchedOf(HandledOn(s, es, ch)))
    decreases |es|
  {
    if es == [] {
      assert s.world.handled[ch] + [] == s.world.handled[ch];
    } else {
      var s1 := Apply(s, es[0]);
      StepKeeps(s, es[0]);
      HandledStep(s, es[0], ch);
      CacheFollows(s1, es[1..], ch);
      var first := HandledBy(s, es[0], ch);
      LatchedOfMore(first, HandledOn(s1, es[1..], ch));
      Associative(s.world.handled[ch], LatchedOf(first), LatchedOf(HandledOn(s1, es[1..], ch)));
    }
  }

  lemma LatchedOfMore(first: seq<RosMessage>, rest: seq<RosMessage>)
    requires |first| <= 1
    ensures LatchedOf(first + rest) == LatchedOf(first) + LatchedOf(rest)
  {
    if first == [] {
      assert first + rest == rest;
    } else {
      assert (first + rest)[1..] == rest && first[1..] == [];
    }
  }

  /** A new subscription starts with no history; each latched message handled on its channel is added to it. */
  lemma HandledStep(s: State, e: Event, ch: ChannelId)
    requires Inv(s) && Enabled(s, e) && ch in Apply(s, e).subscriptions
    ensures ch in Apply(s, e).world.handled
    ensures ch !in s.subscriptions ==> Apply(s, e).world.handled[ch] == []
    ensures ch in s.subscriptions ==>
              ch in s.world.handled && Apply(s, e).world.handled[ch] == s.world.handled[ch] + LatchedOf(HandledBy(s, e, ch))
  {
    if e.RosHandle? {
      HandledByHandling(s, e, ch);
    } else if e.OnSubscribe? {
      HandledByJoining(s, e, ch);
    } else {
      HandledByOthers(s, e, ch);
    }
  }

  lemma LatchedOfOne(m: RosMessage)
    ensures LatchedOf([m]) == if m.Latched() then [m] else []
    ensures LatchedOf([]) == []
  {
    assert [m][1..] == [];
  }

  lemma HandledByOthers(s: State, e: Event, ch: ChannelId)
    requires Inv(s) && Enabled(s, e) && !e.RosHandle? && !e.OnSubscribe? && ch in Apply(s, e).subscriptions
    ensures ch in s.subscriptions && ch in s.world.handled && ch in Apply(s, e).world.handled
    ensures Apply(s, e).world.handled[ch] == s.world.handled[ch] + LatchedOf(HandledBy(s, e, ch))
  {
    HandledStays(s, e);
    assert s.world.handled[ch] + [] == s.world.handled[ch];
  }

  lemma HandledStays(s: State, e: Event)
    requires Enabled(s, e) && !e.RosHandle? && !e.OnSubscribe?
    ensures Apply(s, e).world.handled == s.world.handled
    ensures Apply(s, e).subscriptions.Keys <= s.subscriptions.Keys
  {
  }

  lemma HandledByHandling(s: State, e: Event, ch: ChannelId)
    requires Inv(s) && Enabled(s, e) && e.RosHandle? && ch in Apply(s, e).subscriptions
    ensures ch in s.subscriptions && ch in s.world.handled && ch in Apply(s, e).world.handled
    ensures Apply(s, e).world.handled[ch] == s.world.handled[ch] + LatchedOf(HandledBy(s, e, ch))
  {
    LatchedOfOne(e.message);
    HandleAdds(s.(world := s.world.(inFlight := s.world.inFlight - multiset{(e.ros, e.message)})),
               s.world.rosChannel[e.ros], e.message, ch);
    assert s.world.handled[ch] + [] == s.world.handled[ch];
  }

  lemma HandleAdds(s: State, on: ChannelId, m: RosMessage, ch: ChannelId)
    requires Structure(s) && CacheAgrees(s) && ch in HandleMessage(s, on, m).subscriptions
    ensures var t := HandleMessage(s, on, m);
            && ch in s.subscriptions && ch in s.world.handled && ch in t.world.handled
            && t.world.handled[ch] == if on == ch && m.Latched() then s.world.handled[ch] + [m] else s.world.handled[ch]
  {
  }

  lemma HandledByJoining(s: State, e: Event, ch: ChannelId)
    requires Inv(s) && Enabled(s, e) && e.OnSubscribe? && ch in Apply(s, e).subscriptions
    ensures ch in Apply(s, e).world.handled
    ensures if ch in s.subscriptions then ch in s.world.handled && Apply(s, e).world.handled[ch] == s.world.handled[ch]
            else Apply(s, e).world.handled[ch] == []
  {
  }

  lemma BroadcastsAppend(ms: seq<RosMessage>, ns: seq<RosMessage>)
    ensures Broadcasts(ms + ns) == Broadcasts(ms) + Broadcasts(ns)
  {
  }

  lemma OneMessageOnce(s: State, e: Event, tok: Token)
    requires Enabled(s, e) && tok in s.world.tokens && s.world.tokens[tok].live
    requires s.world.tokens[tok].channel in s.channels
    ensures tok in Apply(s, e).world.tokens
    ensures Direct(Apply(s, e).world.tokens[tok].sent)
         == Direct(s.world.tokens[tok].sent) + Broadcasts(HandledBy(s, e, s.world.tokens[tok].channel))
  {
    SentStep(s, e, tok);
    DirectAppend(s.world.tokens[tok].sent, SentBy(s, e, tok));
    SentDirectly(s, e, tok);
  }

  lemma SentDirectly(s: State, e: Event, tok: Token)
    requires Enabled(s, e) && tok in s.world.tokens && s.world.tokens[tok].live
    requires s.world.tokens[tok].channel in s.channels
    ensures Direct(SentBy(s, e, tok)) == Broadcasts(HandledBy(s, e, s.world.tokens[tok].channel))
  {
    var ch := s.world.tokens[tok].channel;
    if e.RosHandle? && s.world.rosChannel[e.ros] == ch {
      OneBroadcast(e.message);
    } else if e.OnSubscribe? && SentBy(s, e, tok) != [] {
      ReplaysAreNotDirect(e.order, s.subscriptions[ch].latchedMessages);
    }
  }

  lemma OneBroadcast(m: RosMessage)
    ensures Direct([Broadcast(m)]) == [Broadcast(m)] == Broadcasts([m])
  {
    assert [Broadcast(m)][..0] == [];
    assert Broadcasts([m])[0] == Broadcast(m);
  }

  lemma TokenStep(s: State, e: Event, tok: Token)
    requires Enabled(s, e) && tok in s.world.tokens
    ensures var t := Apply(s, e);
            && tok in t.world.tokens
            && t.world.tokens[tok].channel == s.world.tokens[tok].channel
            && t.world.tokens[tok].sink == s.world.tokens[tok].sink
            && (t.world.tokens[tok].live ==> s.world.tokens[tok].live)
  {
    if e.RosHandle? {
      HandleKeepsTokens(s, e);
    } else if e.OnSubscribe? {
      SubscribeKeepsTokens(s, e);
    }
  }

  lemma {:induction false} TokenRun(s: State, es: seq<Event>, tok: Token)
    requires Legal(s, es) && tok in s.world.tokens
    ensures tok in Run(s, es).world.tokens && (Run(s, es).world.tokens[tok].live ==> s.world.tokens[tok].live)
    decreases |es|
  {
    if es != [] {
      TokenStep(s, es[0], tok);
      TokenRun(Apply(s, es[0]), es[1..], tok);
    }
  }

  /** What stands at the end of a run stood after its first step, and before it. */
  lemma StillThere(s: State, es: seq<Event>, tok: Token)
    requires Inv(s) && Legal(s, es) && es != [] && tok in s.world.tokens
    requires s.world.tokens[tok].channel in s.channels && s.world.tokens[tok].channel in Run(s, es).channels
    requires tok in Run(s, es).world.tokens && Run(s, es).world.tokens[tok].live
    ensures s.world.tokens[tok].live && s.world.tokens[tok].channel in Apply(s, es[0]).channels
  {
    var s1, ch := Apply(s, es[0]), s.world.tokens[tok].channel;
    TokenRun(s, es, tok);
    StepKeeps(s, es[0]);
    RemovedForGood(s1, es[1..]);
    ChannelStep(s, es[0], ch);
  }

  /** A channel goes only by being removed. */
  lemma ChannelStep(s: State, e: Event, ch: ChannelId)
    requires Inv(s) && Enabled(s, e) && ch in s.channels
    ensures ch in Apply(s, e).channels || ch in Apply(s, e).world.removed
  {
    if e.PollAdvertise? {
      AdvertiseGrows(Advertised(s.channels, s.world.nextChannel), e.topics, e.oracle);
    }
  }

  /**
   When exactly a message that one ROS subscriber received is cached for another one: the
   subscriber was released by an onUnsubscribe that has not returned, the message is latched, and
   the channel has been subscribed to again.
   */
  lemma LateCallbackIff(s: State, r: RosId, m: RosMessage)
    requires Reachable(s) && Enabled(s, RosHandle(r, m))
    ensures var ch := s.world.rosChannel[r];
            var t := Apply(s, RosHandle(r, m));
            (ch in t.subscriptions && t.subscriptions[ch].ros != r && t.world.handled != s.world.handled)
            <==> (ch in s.subscriptions && m.Latched() && r in s.world.onStack)
    ensures var ch := s.world.rosChannel[r];
            var t := Apply(s, RosHandle(r, m));
            ch in s.subscriptions && m.Latched() && r in s.world.onStack ==>
              && ch in t.world.handled && ch in s.world.handled && t.world.handled[ch] == s.world.handled[ch] + [m]
              && m.CallerId() in t.subscriptions[ch].latchedMessages
              && t.subscriptions[ch].latchedMessages[m.CallerId()] == m.content
  {
    ReachableInv(s);
    var ch := s.world.rosChannel[r];
    var t := Apply(s, RosHandle(r, m));
    if ch in s.subscriptions {
      assert s.subscriptions[ch].ros in Held(s);
      if m.Latched() {
        assert |t.world.handled[ch]| == |s.world.handled[ch]| + 1;
      }
    }
  }

  /** The channel's last client leaves while a callback of its ROS subscriber is running. */
  lemma CallbackOutlivesClient(older: RosMessage) returns (s: State)
    ensures Reachable(s) && 0 in s.channels && 0 in s.world.open && s.subscriptions == map[]
    ensures s.world.rosChannel == map[0 := 0] && s.world.onStack == {0} && s.world.nextRos == 1
    ensures s.world.inFlight == multiset{(0, older)} && s.world.tokens.Keys == {0}
  {
    s := OneClient();
    s := Then(s, RosDispatch(0, older));
    s := Then(s, OnUnsubscribe(0, Client(7, false)));
  }

  /** Another client then makes a new ROS subscription, and a callback of that begins as well. */
  lemma TwoCallbacks(older: RosMessage, newer: RosMessage) returns (s: State)
    ensures Reachable(s) && 0 in s.channels
    ensures s.subscriptions == map[0 := Subscription(1, {8}, {}, map[])]
    ensures s.world.rosChannel == map[0 := 0, 1 := 0] && s.world.onStack == {0}
    ensures (0, older) in s.world.inFlight && (1, newer) in s.world.inFlight
    ensures 0 in s.world.handled && s.world.handled[0] == []
    ensures 1 in s.world.tokens && s.world.tokens[1] == SdkSubscription(0, Client(8, false), Some(4), true, 0, [])
  {
    s := CallbackOutlivesClient(older);
    s := Then(s, SdkSubscribe(1, 0, Client(8, false), Some(4)));
    s := Then(s, OnSubscribe(1, Some(4), []));
    assert {} + {8} == {8};
    s := Then(s, RosDispatch(1, newer));
  }

  /**
   Then the newer message is handled, and the old callback gets its turn last: for any two latched
   messages of one publisher, the older replaces the newer one in the cache and is the last one sent.
   */
  lemma StaleReplacesFresh(older: RosMessage, newer: RosMessage) returns (s: State)
    requires older.Latched() && newer.Latched() && older.CallerId() == newer.CallerId()
    ensures Reachable(s) && 0 in s.subscriptions && 1 in s.world.tokens && s.world.tokens[1].live
    ensures 0 in s.world.handled && s.world.handled[0] == [newer, older]
    ensures older.CallerId() in s.subscriptions[0].latchedMessages
    ensures s.subscriptions[0].latchedMessages[older.CallerId()] == older.content
    ensures LastFrom(s.world.tokens[1].sent, older.CallerId()) == Some(older.content)
  {
    s := TwoCallbacks(older, newer);
    s := ThenLatched(s, 1, newer, 1);
    assert s.world.tokens[1].sent == [Broadcast(newer)];
    s := ThenLatched(s, 0, older, 1);
    LastAfterDelivery([Broadcast(newer)], Broadcast(older), older.CallerId());
  }

  /** One latched message is handled on a subscribed channel, with a client listening. */
  lemma ThenLatched(s: State, r: RosId, m: RosMessage, tok: Token) returns (t: State)
    requires Reachable(s) && Enabled(s, RosHandle(r, m)) && m.Latched()
    requires var ch := s.world.rosChannel[r];
             && ch in s.channels && ch in s.subscriptions && ch in s.world.handled
             && tok in s.world.tokens && s.world.tokens[tok].live && s.world.tokens[tok].channel == ch
    ensures var ch := s.world.rosChannel[r];
            var sub := s.subscriptions[ch];
            && Reachable(t) && t.channels == s.channels
            && t.subscriptions == s.subscriptions[ch := sub.(latchedMessages := sub.latchedMessages[m.CallerId() := m.content])]
            && t.world.handled == s.world.handled[ch := s.world.handled[ch] + [m]]
            && t.world.rosChannel == s.world.rosChannel
            && (forall q, n :: (q, n) in s.world.inFlight && (q, n) != (r, m) ==> (q, n) in t.world.inFlight)
            && tok in t.world.tokens && t.world.tokens.Keys == s.world.tokens.Keys
            && t.world.tokens[tok] == s.world.tokens[tok].(sent := s.world.tokens[tok].sent + [Broadcast(m)])
  {
    t := Then(s, RosHandle(r, m));
  }

  // ---------------------------------------------------------------- latched delivery

  /** From here on, as long as the SDK subscription stands, its client has missed nothing. */
  ghost predicate Level(s: State, tok: Token) {
    tok in s.world.tokens && (s.world.tokens[tok].live ==> s.world.tokens[tok].missed == 0)
  }

  lemma {:induction false} LevelStays(s: State, es: seq<Event>, tok: Token)
    requires Legal(s, es) && Level(s, tok)
    ensures Level(Run(s, es), tok)
    decreases |es|
  {
    if es != [] {
      LevelStep(s, es[0], tok);
      LevelStays(Apply(s, es[0]), es[1..], tok);
    }
  }

  lemma LevelStep(s: State, e: Event, tok: Token)
    requires Enabled(s, e) && Level(s, tok)
    ensures Level(Apply(s, e), tok)
  {
    if e.RosHandle? {
      LevelAfterHandling(s, e, tok);
    } else if e.OnSubscribe? {
      LevelAfterJoining(s, e, tok);
    }
  }

  lemma LevelAfterHandling(s: State, e: Event, tok: Token)
    requires Enabled(s, e) && Level(s, tok) && e.RosHandle?
    ensures Level(Apply(s, e), tok)
  {
  }

  lemma LevelAfterJoining(s: State, e: Event, tok: Token)
    requires Enabled(s, e) && Level(s, tok) && e.OnSubscribe?
    ensures Level(Apply(s, e), tok)
  {
  }

  /** The joining call that the guarantee below is about. */
  ghost predicate CatchesUp(s: State, e: Event) {
    && e.OnSubscribe?
    && Enabled(s, e)
    && s.world.tokens[e.tok].channel in s.channels
    && (s.world.tokens[e.tok].channel in s.subscriptions ==> e.sinkId.Some?)
  }

  /**
   In any run: take a client whose onSubscribe created the ROS subscription or came with a sink id,
   and whose SDK subscription still stands at the end. For every publisher in the latched cache of
   its channel, the cached message is the last one handled for that publisher since the current
   ROS subscription was made, and it is also the last one of that publisher sent to the client.
   */
  lemma LatchedDelivery(s: State, join: Event, after: seq<Event>, publisher: string) returns (last: int)
    requires Reachable(s) && CatchesUp(s, join) && Legal(Apply(s, join), after)
    requires var t := Run(Apply(s, join), after);
             && join.tok in t.world.tokens && t.world.tokens[join.tok].live
             && t.world.tokens[join.tok].channel in t.subscriptions
             && publisher in t.subscriptions[t.world.tokens[join.tok].channel].latchedMessages
    ensures var t := Run(Apply(s, join), after);
            var ch := t.world.tokens[join.tok].channel;
            && ch in t.world.handled
            && LastOf(t.world.handled[ch], last, publisher)
            && t.subscriptions[ch].latchedMessages[publisher] == t.world.handled[ch][last].content
            && LastFrom(t.world.tokens[join.tok].sent, publisher) == Some(t.world.handled[ch][last].content)
  {
    ReachStep(s, join);
    ReachRun(Apply(s, join), after);
    var t := Run(Apply(s, join), after);
    ReachableInv(t);
    LevelStays(Apply(s, join), after, join.tok);
    var sub := t.world.tokens[join.tok];
    LevelIsUpToDate(t, sub);
    var history := t.world.handled[sub.channel];
    CacheHoldsLast(history, publisher);
    last :| LastOf(history, last, publisher);
  }

  /** The publisher has sent a message after the first `from`. */
  ghost predicate HeardSince(history: seq<RosMessage>, from: nat, publisher: string) {
    exists i :: from <= i < |history| && history[i].CallerId() == publisher
  }

  lemma {:induction false} CacheHolds(history: seq<RosMessage>, publisher: string)
    ensures publisher in CacheOf(history) <==> HeardSince(history, 0, publisher)
  {
    if history != [] {
      var k := |history| - 1;
      CacheHolds(history[..k], publisher);
      if history[k].CallerId() != publisher && HeardSince(history, 0, publisher) {
        var i :| 0 <= i < |history| && history[i].CallerId() == publisher;
        assert history[..k][i].CallerId() == publisher;
      }
    }
  }

  lemma CacheHoldsSince(history: seq<RosMessage>, from: nat, publisher: string)
    requires from <= |history|
    ensures publisher in CacheOf(history[from..]) <==> HeardSince(history, from, publisher)
  {
    CacheHolds(history[from..], publisher);
    if HeardSince(history, from, publisher) {
      var i :| from <= i < |history| && history[i].CallerId() == publisher;
      assert history[from..][i - from].CallerId() == publisher;
    }
  }

  /** A later part of a history leaves the same message for each publisher that occurs in it. */
  lemma {:induction false} CacheOfRest(history: seq<RosMessage>, from: nat, publisher: string)
    requires from <= |history| && publisher in CacheOf(history[from..])
    ensures publisher in CacheOf(history) && CacheOf(history)[publisher] == CacheOf(history[from..])[publisher]
    decreases |history|
  {
    var k := |history| - 1;
    assert history[from..] == history[..k][from..] + [history[k]];
    CacheMore(history[..k][from..], history[k]);
    if history[k].CallerId() != publisher {
      CacheOfRest(history[..k], from, publisher);
    }
  }

  /** Every cached publisher has sent something since the client could receive it. */
  ghost predicate HeardAll(s: State, sub: SdkSubscription)
    requires sub.channel in s.subscriptions && sub.channel in s.world.handled
  {
    forall c :: c in s.subscriptions[sub.channel].latchedMessages ==> HeardSince(s.world.handled[sub.channel], sub.missed, c)
  }

  /**
   When exactly a client is up to date, at any moment of any run: each publisher in the cache has
   sent a latched message after those that the client missed.
   */
  lemma UpToDateIff(s: State, tok: Token)
    requires Reachable(s) && tok in s.world.tokens && s.world.tokens[tok].live
    requires s.world.tokens[tok].channel in s.subscriptions
    ensures var sub := s.world.tokens[tok];
            && sub.channel in s.world.handled
            && (UpToDate(sub.sent, s.subscriptions[sub.channel].latchedMessages) <==> HeardAll(s, sub))
  {
    ReachableInv(s);
    var sub := s.world.tokens[tok];
    assert Served(s, sub);
    var history := s.world.handled[sub.channel];
    assert history[0..] == history;
    forall c | c in CacheOf(history)
      ensures LastFrom(sub.sent, c) == Some(CacheOf(history)[c]) <==> HeardSince(history, sub.missed, c)
    {
      CacheHoldsSince(history, sub.missed, c);
      if c in CacheOf(history[sub.missed..]) {
        CacheOfRest(history, sub.missed, c);
      }
    }
  }

  /**
   When exactly a live joiner is up to date once its onSubscribe returns: it made the subscription,
   or came with a sink id, or each cached publisher has been heard since.
   */
  lemma JoinUpToDateIff(s: State, e: Event)
    requires Reachable(s) && e.OnSubscribe? && Enabled(s, e)
    requires s.world.tokens[e.tok].live && s.world.tokens[e.tok].channel in s.channels
    ensures var ch := s.world.tokens[e.tok].channel;
            var t := Apply(s, e);
            && ch in t.subscriptions && (ch in s.subscriptions ==> ch in s.world.handled)
            && (UpToDate(t.world.tokens[e.tok].sent, t.subscriptions[ch].latchedMessages)
                <==> (ch !in s.subscriptions || e.sinkId.Some? || HeardAll(s, s.world.tokens[e.tok])))
  {
    ReachStep(s, e);
    var ch := s.world.tokens[e.tok].channel;
    if CatchesUp(s, e) {
      ReachableInv(Apply(s, e));
      LevelIsUpToDate(Apply(s, e), Apply(s, e).world.tokens[e.tok]);
      if ch in s.subscriptions {
        UpToDateIff(s, e.tok);
      }
    } else {
      UpToDateIff(s, e.tok);
    }
  }

  /** A joiner that has been sent nothing yet needs a subscription to make, a sink id, or an empty cache. */
  lemma FreshJoinUpToDateIff(s: State, e: Event)
    requires Reachable(s) && e.OnSubscribe? && Enabled(s, e)
    requires s.world.tokens[e.tok].live && s.world.tokens[e.tok].channel in s.channels && s.world.tokens[e.tok].sent == []
    ensures var ch := s.world.tokens[e.tok].channel;
            var t := Apply(s, e);
            && ch in t.subscriptions
            && (UpToDate(t.world.tokens[e.tok].sent, t.subscriptions[ch].latchedMessages)
                <==> (ch !in s.subscriptions || e.sinkId.Some? || ch !in s.latchedChannels))
  {
    JoinUpToDateIff(s, e);
    StructureAlways(s);
    var ch := s.world.tokens[e.tok].channel;
    if ch in s.subscriptions {
      UpToDateIff(s, e.tok);
      assert UpToDate([], s.subscriptions[ch].latchedMessages) <==> s.subscriptions[ch].latchedMessages == map[];
    }
  }

  lemma LevelIsUpToDate(t: State, sub: SdkSubscription)
    requires Inv(t) && Served(t, sub) && sub.live && sub.missed == 0 && sub.channel in t.subscriptions
    ensures UpToDate(sub.sent, t.subscriptions[sub.channel].latchedMessages)
  {
    var history := t.world.handled[sub.channel];
    assert history[0..] == history;
  }

  /** A reachable state with one advertised channel. */
  lemma OneChannel() returns (s: State)
    ensures Reachable(s) && 0 in s.channels && 0 in s.world.open && s.subscriptions == map[]
    ensures s.world.tokens == map[] && s.world.rosChannel == map[] && s.world.nextRos == 0
    ensures s.world.onStack == {} && s.world.inFlight == multiset{}
  {
    var p := TopicAndDatatype("/map", "nav_msgs/OccupancyGrid");
    var o := Oracle({p.typeName}, {p});
    s := Start(0, 0);
    assert ReachedBy(s, 0, 0, []);
    s := Then(s, PollCollect({p}));
    assert s.world.poll == Teardown({p}, {}, {});
    s := Then(s, PollAdvertise([p], o));
    assert AdvertiseAll(Advertised(map[], 0), [p], o) == AdvertiseOne(Advertised(map[], 0), p, o);
  }

  /** A reachable state with one advertised channel that one client is subscribed to. */
  lemma OneClient() returns (s: State)
    ensures Reachable(s) && 0 in s.channels && 0 in s.world.open && 0 in s.subscriptions
    ensures s.world.tokens.Keys == {0} && s.world.rosChannel == map[0 := 0]
    ensures s.world.tokens[0].live && s.world.tokens[0].channel == 0
    ensures s.subscriptions == map[0 := Subscription(0, {7}, {}, map[])] && s.world.nextRos == 1
    ensures s.world.onStack == {} && s.world.inFlight == multiset{}
    ensures 0 in s.world.handled && s.world.handled[0] == []
  {
    s := OneChannel();
    s := Then(s, SdkSubscribe(0, 0, Client(7, false), Some(3)));
    s := Then(s, OnSubscribe(0, Some(3), []));
    assert {} + {7} == {7};
  }

  /** Wherever something is cached, a new client that joins without a sink id misses it. */
  lemma JoinerWithoutSinkIsBehind(s: State, ch: ChannelId, tok: Token, client: Client, order: seq<string>)
    requires Reachable(s) && ch in s.latchedChannels && tok !in s.world.tokens
    requires ch in s.subscriptions ==> Enumerates(order, s.subscriptions[ch].latchedMessages)
    ensures Enabled(s, SdkSubscribe(tok, ch, client, None))
    ensures var t := Apply(s, SdkSubscribe(tok, ch, client, None));
            && Enabled(t, OnSubscribe(tok, None, order))
            && var u := Apply(t, OnSubscribe(tok, None, order));
               && u.world.tokens[tok].live && ch in u.subscriptions
               && !UpToDate(u.world.tokens[tok].sent, u.subscriptions[ch].latchedMessages)
  {
    ReachableInv(s);
    var publisher :| publisher in s.subscriptions[ch].latchedMessages;
    var u := Apply(Apply(s, SdkSubscribe(tok, ch, client, None)), OnSubscribe(tok, None, order));
    assert publisher in u.subscriptions[ch].latchedMessages && LastFrom(u.world.tokens[tok].sent, publisher) == None;
  }

  /** Such a state is reachable. */
  lemma LatchedChannelReachable() returns (s: State)
    ensures Reachable(s) && 0 in s.latchedChannels && 1 !in s.world.tokens
    ensures 0 in s.subscriptions && "/map_server" in s.subscriptions[0].latchedMessages
  {
    var m := RosMessage(Some(map["latching" := "1", "callerid" := "/map_server"]), Cached([1], 5));
    s := OneClient();
    s := Then(s, RosDispatch(0, m));
    assert m.Latched() && m.CallerId() == "/map_server";
    s := ThenLatched(s, 0, m, 0);
    assert m.CallerId() in s.subscriptions[0].latchedMessages;
    StructureAlways(s);
  }

  lemma Then(s: State, e: Event) returns (t: State)
    requires Reachable(s) && Enabled(s, e)
    ensures t == Apply(s, e) && Reachable(t)
  {
    ReachStep(s, e);
    t := Apply(s, e);
  }

  // ---------------------------------------------------------------- teardown before replacement

  /** Ids of ROS subscribers are not reused: one that is gone, or only waits to be released, stays so. */
  ghost predicate Doomed(s: State, r: RosId) {
    r < s.world.nextRos && (r in s.world.rosChannel ==> r in Releasing(s.world.poll))
  }

  lemma DoomedStep(s: State, e: Event, r: RosId)
    requires Inv(s) && Enabled(s, e) && Doomed(s, r) && !e.PollAdvertise?
    ensures Doomed(Apply(s, e), r)
  {
  }

  lemma RemovedStep(s: State, e: Event)
    requires Inv(s) && Enabled(s, e)
    ensures s.world.removed <= Apply(s, e).world.removed
    ensures forall r :: r in Apply(s, e).world.rosChannel && Apply(s, e).world.rosChannel[r] in s.world.removed ==>
              r in s.world.rosChannel && s.world.rosChannel[r] == Apply(s, e).world.rosChannel[r]
  {
    match e {
      case OnSubscribe(_, _, _) => RemovedAfterSubscribe(s, e);
      case RosHandle(_, _) => RemovedAfterHandling(s, e);
      case _ =>
    }
  }

  lemma RemovedAfterSubscribe(s: State, e: Event)
    requires Inv(s) && Enabled(s, e) && e.OnSubscribe?
    ensures Apply(s, e).world.removed == s.world.removed
    ensures forall r :: r in Apply(s, e).world.rosChannel && Apply(s, e).world.rosChannel[r] in s.world.removed ==>
              r in s.world.rosChannel && s.world.rosChannel[r] == Apply(s, e).world.rosChannel[r]
  {
  }

  lemma RemovedAfterHandling(s: State, e: Event)
    requires Enabled(s, e) && e.RosHandle?
    ensures Apply(s, e).world.removed == s.world.removed && Apply(s, e).world.rosChannel == s.world.rosChannel
  {
  }

  /** A removed channel never comes back, and no ROS subscription is ever made for it again. */
  lemma {:induction false} RemovedForGood(s: State, es: seq<Event>)
    requires Inv(s) && Legal(s, es)
    ensures var t := Run(s, es);
            && s.world.removed !! t.channels.Keys && s.world.removed !! t.subscriptions.Keys
            && s.world.removed <= t.world.removed
            && (forall r :: r in t.world.rosChannel && t.world.rosChannel[r] in s.world.removed ==>
                  r in s.world.rosChannel && s.world.rosChannel[r] == t.world.rosChannel[r])
    decreases |es|
  {
    if es != [] {
      StepKeeps(s, es[0]);
      RemovedStep(s, es[0]);
      RemovedForGood(Apply(s, es[0]), es[1..]);
    }
  }

  /** No event of the poll thread's next round. */
  ghost predicate NoRound(es: seq<Event>) {
    forall e :: e in es ==> !e.PollCollect? && !e.PollAdvertise?
  }

  lemma {:induction false} DoomedRun(s: State, es: seq<Event>, r: RosId)
    requires Inv(s) && Legal(s, es) && Doomed(s, r) && NoRound(es)
    ensures Doomed(Run(s, es), r)
    decreases |es|
  {
    if es != [] {
      assert es[0] in es && forall e :: e in es[1..] ==> e in es;
      StepKeeps(s, es[0]);
      DoomedStep(s, es[0], r);
      DoomedRun(Apply(s, es[0]), es[1..], r);
    }
  }

  /**
   Between phase 1 of updateAdvertisedTopics and the moment phase 3 may begin, any events of the
   other threads may happen. Still, by then every channel collected in phase 1 is closed and every
   ROS subscriber collected with it is destroyed; whatever ROS subscriber or running callback
   remains belongs to a channel that is still advertised, or to an onUnsubscribe that has not returned.
   */
  lemma TeardownBeforeReplacement(s: State, latest: set<TopicAndDatatype>, es: seq<Event>,
                                  topics: seq<TopicAndDatatype>, o: Oracle)
    requires Reachable(s) && Enabled(s, PollCollect(latest))
    requires Legal(Collect(s, latest), es) && NoRound(es)
    requires Enabled(Run(Collect(s, latest), es), PollAdvertise(topics, o))
    ensures var stale := Stale(s.channels, latest);
            var t := Run(Collect(s, latest), es);
            && stale !! t.world.open
            && Released(s.subscriptions, stale) !! t.world.rosChannel.Keys
            && (forall r :: r in t.world.rosChannel && r !in t.world.onStack ==>
                  var ch := t.world.rosChannel[r];
                  ch in t.channels && ch in t.subscriptions && t.subscriptions[ch].ros == r)
            && (forall r, m :: (r, m) in t.world.inFlight && r !in t.world.onStack ==>
                  r in t.world.rosChannel && t.world.rosChannel[r] in t.channels)
  {
    ReachableInv(s);
    StepKeeps(s, PollCollect(latest));
    var c := Collect(s, latest);
    RunKeeps(c, es);
    RemovedForGood(c, es);
    var t := Run(c, es);
    forall r | r in Released(s.subscriptions, Stale(s.channels, latest)) ensures r !in t.world.rosChannel {
      assert Doomed(c, r);
      DoomedRun(c, es, r);
    }
    forall r | r in t.world.rosChannel && r !in t.world.onStack
      ensures var ch := t.world.rosChannel[r]; ch in t.subscriptions && t.subscriptions[ch].ros == r
    {
      assert r in Held(t);
    }
  }

  // ---------------------------------------------------------------- reconciliation under interference

  lemma {:induction false} OthersKeepChannels(s: State, es: seq<Event>)
    requires Legal(s, es) && NoRound(es)
    ensures Run(s, es).channels == s.channels && Run(s, es).world.nextChannel == s.world.nextChannel
    decreases |es|
  {
    if es != [] {
      assert es[0] in es && forall e :: e in es[1..] ==> e in es;
      OthersKeepChannels(Apply(s, es[0]), es[1..]);
    }
  }
}
