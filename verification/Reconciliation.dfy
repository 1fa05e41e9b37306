/** What one round of updateAdvertisedTopics makes of the channel map. */
module Reconciliation {
  import opened Wrappers
  import opened ChannelModel
  import opened ChannelSafety
  import opened ChannelTheorems

  type Channels = map<ChannelId, Channel>

  ghost predicate Below(channels: Channels, next: ChannelId) {
    forall c :: c in channels ==> c < next
  }

  /** At most one channel advertises a topic with a given schema name. */
  ghost predicate Unique(channels: Channels) {
    forall c, d :: c in channels && d in channels && channels[c].schema.Some? && channels[c] == channels[d] ==> c == d
  }

  function Elements(latest: seq<TopicAndDatatype>): set<TopicAndDatatype> {
    set p | p in latest
  }

  /** Phase 1, then phase 3, with `latest` walked in the given order. */
  function Round(a: Advertised, latest: seq<TopicAndDatatype>, o: Oracle): Advertised {
    AdvertiseAll(a.(channels := a.channels - Stale(a.channels, Elements(latest))), latest, o)
  }

  /** A channel with this topic and a schema of this name. */
  ghost predicate Offers(channels: Channels, p: TopicAndDatatype) {
    exists c :: c in channels && channels[c] == Channel(p.topic, Some(p.typeName))
  }

  lemma MatchedIsOffers(channels: Channels, p: TopicAndDatatype)
    ensures Matched(channels, p) <==> Offers(channels, p)
  {
    if Offers(channels, p) {
      var c :| c in channels && channels[c] == Channel(p.topic, Some(p.typeName));
      assert Is(channels[c], p);
    }
  }

  /** The list has the channel's topic with its schema's name; without a schema, with an empty name. */
  predicate Listed(c: Channel, latest: seq<TopicAndDatatype>) {
    match c.schema
    case Some(typeName) => TopicAndDatatype(c.topic, typeName) in latest
    case None => TopicAndDatatype(c.topic, "") in latest
  }

  /** Exactly one channel per reported pair, and no other channel. */
  ghost predicate Reconciled(channels: Channels, latest: seq<TopicAndDatatype>) {
    && Unique(channels)
    && (forall p :: p in latest ==> Offers(channels, p))
    && (forall c :: c in channels ==> channels[c].schema.Some? && Listed(channels[c], latest))
  }

  /** Creating a channel for p would succeed and give it a schema. */
  predicate Advertisable(o: Oracle, p: TopicAndDatatype) {
    p in o.creatable && p.typeName in o.described
  }

  lemma IsMeansKey(c: Channel, p: TopicAndDatatype)
    ensures Is(c, p) <==> c.schema.Some? && KeyOf(c) == p
  {
  }

  lemma {:induction false} AdvertiseAllMakes(a: Advertised, latest: seq<TopicAndDatatype>, o: Oracle)
    requires Below(a.channels, a.next)
    ensures var b := AdvertiseAll(a, latest, o);
            && Below(b.channels, b.next) && a.next <= b.next
            && (forall c :: c in a.channels ==> c in b.channels && b.channels[c] == a.channels[c])
            && (forall c :: c in b.channels && c !in a.channels ==>
                  a.next <= c && exists p :: p in latest && p in o.creatable && !Matched(a.channels, p)
                                          && b.channels[c] == NewChannel(p, o))
            && (b.next == a.next ==> b.channels == a.channels)
  {
    if latest != [] {
      var k := |latest| - 1;
      AdvertiseAllMakes(a, latest[..k], o);
      var b' := AdvertiseAll(a, latest[..k], o);
      assert latest[k] in latest;
      if Matched(a.channels, latest[k]) {
        var c :| c in a.channels && Is(a.channels[c], latest[k]);
        assert Is(b'.channels[c], latest[k]);
      }
    }
  }

  /**
   Phase 3 keeps what is there; each new channel is for a creatable pair of the list that nothing
   offered. It has the pair's topic, and the type as its schema if that has a definition.
   */
  lemma AdvertiseAllFacts(a: Advertised, latest: seq<TopicAndDatatype>, o: Oracle)
    requires Below(a.channels, a.next)
    ensures var b := AdvertiseAll(a, latest, o);
            && Below(b.channels, b.next) && a.next <= b.next
            && (forall c :: c in a.channels ==> c in b.channels && b.channels[c] == a.channels[c])
            && (forall c :: c in b.channels && c !in a.channels ==>
                  a.next <= c && exists p :: p in latest && p in o.creatable && !Offers(a.channels, p)
                                          && b.channels[c].topic == p.topic
                                          && b.channels[c].schema == (if p.typeName in o.described then Some(p.typeName) else None))
            && (b.next == a.next ==> b.channels == a.channels)
  {
    AdvertiseAllMakes(a, latest, o);
    forall p { MatchedIsOffers(a.channels, p); }
  }

  lemma {:induction false} AdvertiseKeepsUnique(a: Advertised, latest: seq<TopicAndDatatype>, o: Oracle)
    requires Below(a.channels, a.next) && Unique(a.channels)
    ensures Unique(AdvertiseAll(a, latest, o).channels)
  {
    if latest != [] {
      var k := |latest| - 1;
      AdvertiseKeepsUnique(a, latest[..k], o);
      AdvertiseAllMakes(a, latest[..k], o);
      var b := AdvertiseAll(a, latest[..k], o);
      var p := latest[k];
      if !Matched(b.channels, p) && p in o.creatable {
        forall c | c in b.channels ensures b.channels[c].schema.Some? ==> b.channels[c] != NewChannel(p, o) {
          assert !Is(b.channels[c], p);
        }
      }
    }
  }

  lemma {:induction false} AdvertiseMatchesIff(a: Advertised, latest: seq<TopicAndDatatype>, o: Oracle, p: TopicAndDatatype)
    requires Below(a.channels, a.next)
    ensures Matched(AdvertiseAll(a, latest, o).channels, p)
        <==> (Matched(a.channels, p) || (p in latest && Advertisable(o, p)))
  {
    if latest != [] {
      var k := |latest| - 1;
      var b := AdvertiseAll(a, latest[..k], o);
      AdvertiseMatchesIff(a, latest[..k], o, p);
      AdvertiseAllMakes(a, latest[..k], o);
      assert latest == latest[..k] + [latest[k]];
      var b' := AdvertiseOne(b, latest[k], o);
      if Matched(b.channels, p) {
        var c :| c in b.channels && Is(b.channels[c], p);
        assert Is(b'.channels[c], p);
      } else if Matched(b'.channels, p) {
        var c :| c in b'.channels && Is(b'.channels[c], p);
        assert c == b.next && NewChannel(latest[k], o).schema == Some(p.typeName);
      } else if p == latest[k] && Advertisable(o, p) {
        assert Is(b'.channels[b.next], p);
      }
    }
  }

  /** A pair has a channel with its schema after phase 3 exactly if it had one, or is listed and could be advertised. */
  lemma AdvertiseMatches(a: Advertised, latest: seq<TopicAndDatatype>, o: Oracle, p: TopicAndDatatype)
    requires Below(a.channels, a.next)
    ensures Offers(AdvertiseAll(a, latest, o).channels, p)
        <==> (Offers(a.channels, p) || (p in latest && p in o.creatable && p.typeName in o.described))
  {
    AdvertiseMatchesIff(a, latest, o, p);
    MatchedIsOffers(a.channels, p);
    MatchedIsOffers(AdvertiseAll(a, latest, o).channels, p);
  }

  /** The channels that survive phase 1 and have no schema: their key's type name is empty. */
  ghost predicate SchemalessSurvivor(channels: Channels, latest: seq<TopicAndDatatype>) {
    exists c :: c in channels && channels[c].schema.None? && TopicAndDatatype(channels[c].topic, "") in latest
  }

  /** Pairs that keep their channel keep its id; pairs that are gone lose theirs. */
  lemma RoundKeepsSurvivors(a: Advertised, latest: seq<TopicAndDatatype>, o: Oracle)
    requires Below(a.channels, a.next)
    ensures var b := Round(a, latest, o);
            && Below(b.channels, b.next)
            && (forall c :: c in a.channels && Listed(a.channels[c], latest) ==>
                  c in b.channels && b.channels[c] == a.channels[c])
            && (forall c :: c in a.channels && !Listed(a.channels[c], latest) ==> c !in b.channels)
  {
    var kept := a.(channels := a.channels - Stale(a.channels, Elements(latest)));
    AdvertiseAllMakes(kept, latest, o);
  }

  /**
   After a round the channels are exactly the reported pairs, one channel each, if and only if
   each reported pair had a channel or can be advertised with a schema, and no channel without a
   schema was kept. (A channel without a schema is kept only for a pair with an empty type name.)
   */
  lemma ReconciledIff(a: Advertised, latest: seq<TopicAndDatatype>, o: Oracle)
    requires Below(a.channels, a.next) && Unique(a.channels)
    ensures Reconciled(Round(a, latest, o).channels, latest)
        <==> ((forall p :: p in latest ==> Offers(a.channels, p) || Advertisable(o, p))
              && !SchemalessSurvivor(a.channels, latest))
  {
    var b := Round(a, latest, o);
    RoundMatches(a, latest, o);
    forall p { MatchedIsOffers(a.channels, p); }
    forall p { MatchedIsOffers(b.channels, p); }
    AdvertiseKeepsUnique(a.(channels := a.channels - Stale(a.channels, Elements(latest))), latest, o);
    RoundKeepsSurvivors(a, latest, o);
    if SchemalessSurvivor(a.channels, latest) {
      var c :| c in a.channels && a.channels[c].schema.None? && TopicAndDatatype(a.channels[c].topic, "") in latest;
      assert c in b.channels && b.channels[c] == a.channels[c];
    } else if forall p :: p in latest ==> Offers(a.channels, p) || Advertisable(o, p) {
      RoundOnlyListed(a, latest, o);
    }
  }

  lemma RoundMatches(a: Advertised, latest: seq<TopicAndDatatype>, o: Oracle)
    requires Below(a.channels, a.next)
    ensures forall p :: p in latest ==>
              (Matched(Round(a, latest, o).channels, p) <==> Matched(a.channels, p) || Advertisable(o, p))
  {
    var kept := a.(channels := a.channels - Stale(a.channels, Elements(latest)));
    forall p | p in latest
      ensures Matched(Round(a, latest, o).channels, p) <==> Matched(a.channels, p) || Advertisable(o, p)
    {
      AdvertiseMatchesIff(kept, latest, o, p);
      if Matched(a.channels, p) {
        var c :| c in a.channels && Is(a.channels[c], p);
        IsMeansKey(a.channels[c], p);
        assert c in kept.channels;
      }
    }
  }

  lemma RoundOnlyListed(a: Advertised, latest: seq<TopicAndDatatype>, o: Oracle)
    requires Below(a.channels, a.next) && !SchemalessSurvivor(a.channels, latest)
    requires forall p :: p in latest ==> Matched(a.channels, p) || Advertisable(o, p)
    ensures var b := Round(a, latest, o).channels;
            forall c :: c in b ==> b[c].schema.Some? && KeyOf(b[c]) in latest
  {
    var kept := a.(channels := a.channels - Stale(a.channels, Elements(latest)));
    var b := Round(a, latest, o).channels;
    AdvertiseAllMakes(kept, latest, o);
    forall c | c in b && c !in kept.channels ensures b[c].schema.Some? && KeyOf(b[c]) in latest {
      var p :| p in latest && p in o.creatable && !Matched(kept.channels, p) && b[c] == NewChannel(p, o);
      forall d | d in a.channels ensures !Is(a.channels[d], p) {
        IsMeansKey(a.channels[d], p);
        assert d in kept.channels ==> !Is(kept.channels[d], p);
      }
      IsMeansKey(b[c], p);
    }
  }

  /** Channels with a schema have a type whose definition is known. */
  ghost predicate Known(channels: Channels, o: Oracle) {
    forall c :: c in channels && channels[c].schema.Some? ==> channels[c].schema.value in o.described
  }

  lemma RoundKnown(a: Advertised, latest: seq<TopicAndDatatype>, o: Oracle)
    requires Below(a.channels, a.next) && Known(a.channels, o)
    ensures Known(Round(a, latest, o).channels, o)
  {
    AdvertiseAllMakes(a.(channels := a.channels - Stale(a.channels, Elements(latest))), latest, o);
  }

  /**
   Reporting the same topics again changes nothing exactly when every reported type that can be
   created has a known definition: a type without one gets a channel without a schema, which the
   next round removes (or, for an empty type name, keeps and duplicates) and creates anew.
   */
  lemma RepeatIff(a: Advertised, latest: seq<TopicAndDatatype>, o: Oracle)
    requires Below(a.channels, a.next) && Known(a.channels, o)
    ensures var b := Round(a, latest, o);
            Round(b, latest, o) == b <==> (forall p :: p in latest && p in o.creatable ==> p.typeName in o.described)
  {
    var b := Round(a, latest, o);
    RoundKeepsSurvivors(a, latest, o);
    RoundKnown(a, latest, o);
    var kept := b.(channels := b.channels - Stale(b.channels, Elements(latest)));
    if forall p :: p in latest && p in o.creatable ==> p.typeName in o.described {
      NothingStale(a, latest, o);
      assert kept == b;
      NothingToAdd(a, latest, o);
      AddsNothing(kept, latest, o);
    } else {
      var p :| p in latest && p in o.creatable && p.typeName !in o.described;
      if Round(b, latest, o) == b {
        AdvertiseAllMakes(kept, latest, o);
        UndescribedIsCreated(kept, latest, o, p);
        assert false;
      }
    }
  }

  lemma NothingStale(a: Advertised, latest: seq<TopicAndDatatype>, o: Oracle)
    requires Below(a.channels, a.next)
    requires forall p :: p in latest && p in o.creatable ==> p.typeName in o.described
    ensures var b := Round(a, latest, o);
            b.channels - Stale(b.channels, Elements(latest)) == b.channels
  {
    var kept := a.(channels := a.channels - Stale(a.channels, Elements(latest)));
    AdvertiseAllMakes(kept, latest, o);
    var b := Round(a, latest, o);
    forall c | c in b.channels ensures KeyOf(b.channels[c]) in latest {
      if c !in kept.channels {
        var p :| p in latest && p in o.creatable && b.channels[c] == NewChannel(p, o);
        assert p.typeName in o.described;
        IsMeansKey(b.channels[c], p);
      }
    }
  }

  lemma NothingToAdd(a: Advertised, latest: seq<TopicAndDatatype>, o: Oracle)
    requires Below(a.channels, a.next)
    requires forall p :: p in latest && p in o.creatable ==> p.typeName in o.described
    ensures forall p :: p in latest ==> Matched(Round(a, latest, o).channels, p) || p !in o.creatable
  {
    var kept := a.(channels := a.channels - Stale(a.channels, Elements(latest)));
    forall p | p in latest && p in o.creatable ensures Matched(Round(a, latest, o).channels, p) {
      AdvertiseMatchesIff(kept, latest, o, p);
    }
  }

  lemma {:induction false} AddsNothing(a: Advertised, latest: seq<TopicAndDatatype>, o: Oracle)
    requires forall p :: p in latest ==> Matched(a.channels, p) || p !in o.creatable
    ensures AdvertiseAll(a, latest, o) == a
  {
    if latest != [] {
      assert forall p :: p in latest[..|latest| - 1] ==> p in latest;
      assert latest[|latest| - 1] in latest;
      AddsNothing(a, latest[..|latest| - 1], o);
    }
  }

  lemma {:induction false} UndescribedIsCreated(a: Advertised, latest: seq<TopicAndDatatype>, o: Oracle, p: TopicAndDatatype)
    requires Below(a.channels, a.next) && Known(a.channels, o)
    requires p in latest && p in o.creatable && p.typeName !in o.described
    ensures a.next < AdvertiseAll(a, latest, o).next
  {
    var k := |latest| - 1;
    AdvertiseAllMakes(a, latest[..k], o);
    if p in latest[..k] {
      UndescribedIsCreated(a, latest[..k], o, p);
    } else {
      AdvertiseMatchesIff(a, latest[..k], o, p);
      assert latest == latest[..k] + [latest[k]];
      assert !Matched(a.channels, p);
    }
  }

  // ---------------------------------------------------------------- rounds of the machine

  lemma {:induction false} UniqueRun(s: State, es: seq<Event>)
    requires Inv(s) && Unique(s.channels) && Legal(s, es)
    ensures Unique(Run(s, es).channels)
    decreases |es|
  {
    if es != [] {
      StepKeeps(s, es[0]);
      if es[0].PollAdvertise? {
        AdvertiseKeepsUnique(Advertised(s.channels, s.world.nextChannel), es[0].topics, es[0].oracle);
      }
      UniqueRun(Apply(s, es[0]), es[1..]);
    }
  }

  lemma ReachableUnique(s: State)
    requires Reachable(s)
    ensures Unique(s.channels) && Below(s.channels, s.world.nextChannel)
  {
    ReachableInv(s);
    var c, r, es :| ReachedBy(s, c, r, es);
    UniqueRun(Start(c, r), es);
  }

  /**
   Whatever the other threads do between the phases, a round turns the channels of a reachable
   state into those of Round, and so reconciles them under the condition of ReconciledIff.
   */
  lemma RoundUnderInterference(s: State, es: seq<Event>, topics: seq<TopicAndDatatype>, o: Oracle)
    requires Reachable(s) && Enabled(s, PollCollect(Elements(topics)))
    requires Legal(Collect(s, Elements(topics)), es) && NoRound(es)
    requires Enabled(Run(Collect(s, Elements(topics)), es), PollAdvertise(topics, o))
    ensures var t := Apply(Run(Collect(s, Elements(topics)), es), PollAdvertise(topics, o));
            && t.channels == Round(Advertised(s.channels, s.world.nextChannel), topics, o).channels
            && (Reconciled(t.channels, topics)
                <==> ((forall p :: p in topics ==> Offers(s.channels, p) || Advertisable(o, p))
                      && !SchemalessSurvivor(s.channels, topics)))
            && (forall c :: c in s.channels && Listed(s.channels[c], topics) ==>
                  c in t.channels && t.channels[c] == s.channels[c])
  {
    OthersKeepChannels(Collect(s, Elements(topics)), es);
    ReachableUnique(s);
    ReconciledIff(Advertised(s.channels, s.world.nextChannel), topics, o);
    RoundKeepsSurvivors(Advertised(s.channels, s.world.nextChannel), topics, o);
  }
}
