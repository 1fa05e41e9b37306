/**
 What the QoS classifier can see. It holds `_latchedChannelsMutex` only, so it may look in the
 middle of a critical section of `_subscriptionsMutex`. Each such section is a list of small
 writes here, and the classifier may look between any two.
 */
module ClassifierView {
  import opened ChannelModel
  import opened ChannelTheorems

  datatype Write =
    | DropSubscription(ch: ChannelId)
    | ForgetLatched(ch: ChannelId)
    | CacheMessage(ch: ChannelId)
    | MarkLatched(ch: ChannelId)

  /** The channels whose cache is not empty, and the classifier's own set. */
  datatype Shared = Shared(cached: set<ChannelId>, latched: set<ChannelId>)

  function Project(s: State): Shared {
    Shared((set ch | ch in s.subscriptions && s.subscriptions[ch].latchedMessages != map[]), s.latchedChannels)
  }

  function Perform(v: Shared, w: Write): Shared {
    match w
    case DropSubscription(ch) => v.(cached := v.cached - {ch})
    case ForgetLatched(ch) => v.(latched := v.latched - {ch})
    case CacheMessage(ch) => v.(cached := v.cached + {ch})
    case MarkLatched(ch) => v.(latched := v.latched + {ch})
  }

  function PerformAll(v: Shared, ws: seq<Write>): Shared {
    if ws == [] then v else Perform(PerformAll(v, ws[..|ws| - 1]), ws[|ws| - 1])
  }

  /** Phase 1 drops the stale channels one by one, in the order its map iteration meets them. */
  function DropEach(stale: seq<ChannelId>): seq<Write> {
    if stale == [] then []
    else DropEach(stale[..|stale| - 1])
         + [DropSubscription(stale[|stale| - 1]), ForgetLatched(stale[|stale| - 1])]
  }

  /** The writes of an event's critical section, in program order. */
  ghost function Writes(s: State, e: Event, stale: seq<ChannelId>): seq<Write>
    requires Enabled(s, e)
  {
    match e
    case OnUnsubscribe(ch, client) =>
      if ch in s.subscriptions && ch !in Unsubscribe(s, ch, client).subscriptions
      then [DropSubscription(ch), ForgetLatched(ch)] else []
    case RosHandle(r, m) =>
      var ch := s.world.rosChannel[r];
      if ch in s.channels && m.Latched() && ch in s.subscriptions then [CacheMessage(ch), MarkLatched(ch)] else []
    case PollCollect(_) => DropEach(stale)
    case _ => []
  }

  /** The classifier's set is right about every channel, except perhaps this one. */
  ghost predicate RightExcept(v: Shared, ch: ChannelId) {
    forall d :: d != ch ==> (d in v.cached <==> d in v.latched)
  }

  lemma {:induction false} PerformAppend(v: Shared, ws: seq<Write>, xs: seq<Write>)
    ensures PerformAll(v, ws + xs) == PerformAll(PerformAll(v, ws), xs)
  {
    if xs == [] {
      assert ws + xs == ws;
    } else {
      assert (ws + xs)[..|ws + xs| - 1] == ws + xs[..|xs| - 1];
      PerformAppend(v, ws, xs[..|xs| - 1]);
    }
  }

  lemma {:induction false} WritesToOneChannel(v: Shared, ws: seq<Write>, c: ChannelId)
    requires RightExcept(v, c) && forall w :: w in ws ==> w.ch == c
    ensures RightExcept(PerformAll(v, ws), c)
  {
    if ws != [] {
      WritesToOneChannel(v, ws[..|ws| - 1], c);
    }
  }

  lemma Pair(v: Shared, w: Write, x: Write)
    ensures PerformAll(v, [w, x]) == Perform(Perform(v, w), x)
  {
    assert [w, x][..1] == [w];
    assert [w][..0] == [];
    assert PerformAll(v, [w]) == Perform(PerformAll(v, []), w);
  }

  lemma {:induction false} DropEachEffect(v: Shared, stale: seq<ChannelId>)
    requires v.cached == v.latched
    ensures PerformAll(v, DropEach(stale)) == Shared(v.cached - (set c | c in stale), v.latched - (set c | c in stale))
  {
    if stale != [] {
      var n := |stale| - 1;
      DropEachEffect(v, stale[..n]);
      PerformAppend(v, DropEach(stale[..n]), [DropSubscription(stale[n]), ForgetLatched(stale[n])]);
      Pair(PerformAll(v, DropEach(stale[..n])), DropSubscription(stale[n]), ForgetLatched(stale[n]));
      assert stale == stale[..n] + [stale[n]];
    }
  }

  lemma {:induction false} DropEachPrefix(v: Shared, stale: seq<ChannelId>, k: nat)
    requires v.cached == v.latched && k <= |DropEach(stale)|
    ensures exists ch :: RightExcept(PerformAll(v, DropEach(stale)[..k]), ch)
  {
    if stale == [] {
      assert DropEach(stale)[..k] == [];
      assert RightExcept(PerformAll(v, []), 0);
    } else {
      var c := stale[|stale| - 1];
      var before := DropEach(stale[..|stale| - 1]);
      var ws := DropEach(stale);
      if k <= |before| {
        DropEachPrefix(v, stale[..|stale| - 1], k);
        assert ws[..k] == before[..k];
      } else {
        DropEachEffect(v, stale[..|stale| - 1]);
        var tail := [DropSubscription(c), ForgetLatched(c)][..k - |before|];
        assert ws[..k] == before + tail;
        PerformAppend(v, before, tail);
        WritesToOneChannel(PerformAll(v, before), tail, c);
        assert RightExcept(PerformAll(v, ws[..k]), c);
      }
    }
  }

  /**
   In every reachable state, with any critical section running up to any point, the classifier's
   set differs from the channels with a non-empty cache in one channel at most; when no section
   runs they are equal. The small writes add up to the section's event.
   */
  lemma ClassifierSees(s: State, e: Event, stale: seq<ChannelId>, k: nat)
    requires Reachable(s) && Enabled(s, e)
    requires e.PollCollect? ==> (set c | c in stale) == Stale(s.channels, e.latest)
    requires k <= |Writes(s, e, stale)|
    ensures Project(s).cached == Project(s).latched
    ensures PerformAll(Project(s), Writes(s, e, stale)) == Project(Apply(s, e))
    ensures exists ch :: RightExcept(PerformAll(Project(s), Writes(s, e, stale)[..k]), ch)
  {
    StructureAlways(s);
    ReachStep(s, e);
    StructureAlways(Apply(s, e));
    var v, ws := Project(s), Writes(s, e, stale);
    if e.PollCollect? {
      CollectSection(s, e.latest, stale);
      DropEachPrefix(v, stale, k);
    } else {
      ShortSection(s, e, ws);
      var ch := if ws == [] then 0 else ws[0].ch;
      WritesToOneChannel(v, ws[..k], ch);
    }
  }

  lemma CollectSection(s: State, latest: set<TopicAndDatatype>, stale: seq<ChannelId>)
    requires (set c | c in stale) == Stale(s.channels, latest)
    requires var t := Collect(s, latest);
             Project(s).cached == Project(s).latched && Project(t).cached == Project(t).latched
    ensures PerformAll(Project(s), DropEach(stale)) == Project(Collect(s, latest))
  {
    DropEachEffect(Project(s), stale);
  }

  /** Sections with at most two writes: both sets change alike. */
  lemma ShortSection(s: State, e: Event, ws: seq<Write>)
    requires Enabled(s, e) && !e.PollCollect? && ws == Writes(s, e, [])
    requires Project(s).cached == Project(s).latched && Project(Apply(s, e)).cached == Project(Apply(s, e)).latched
    ensures PerformAll(Project(s), ws) == Project(Apply(s, e))
    ensures ws != [] ==> forall w :: w in ws ==> w.ch == ws[0].ch
  {
    if ws != [] {
      Pair(Project(s), ws[0], ws[1]);
    }
    LatchedAfter(s, e);
  }

  lemma LatchedAfter(s: State, e: Event)
    requires Enabled(s, e) && !e.PollCollect?
    ensures var ws := Writes(s, e, []);
            Apply(s, e).latchedChannels == if ws == [] then s.latchedChannels
                                           else if ws[0].DropSubscription? then s.latchedChannels - {ws[0].ch}
                                           else s.latchedChannels + {ws[0].ch}
  {
  }
}
