/**
 The lock discipline of the bridge. Every thread runs a list of lock operations, taken section by
 section from the code; the locks are the bridge's own mutexes, the SDK locks that its calls
 take, and, as one more kind of lock, the wait for the running callbacks of a ros::Subscriber.
 */
module LockOrder {
  type RosId = nat

  datatype Lock =
    | GatewaySubscriptions            // SDK: held around the gateway's subscription callbacks and by close()
    | RosCallbacks(ros: RosId)        // held while a callback runs, taken by destroying the subscriber
    | SubscriptionsMutex
    | ClientAdvertisementsMutex
    | DescriptionProviderMutex
    | ChannelRegistry                 // SDK: taken by log() and create()
    | LatchedChannelsMutex
    | ServicesMutex
    | PendingServiceCallsMutex
    | PendingCallMutex(call: nat)
    | PollMutex
    | ParamOpMutex
    | ParamInterfaceMutex
  {
    function Rank(): (r: nat)
      ensures r <= 12
    {
      match this
      case GatewaySubscriptions => 0
      case RosCallbacks(_) => 1
      case SubscriptionsMutex => 2
      case ClientAdvertisementsMutex => 3
      case DescriptionProviderMutex => 4
      case ChannelRegistry => 5
      case LatchedChannelsMutex => 6
      case ServicesMutex => 7
      case PendingServiceCallsMutex => 8
      case PendingCallMutex(_) => 9
      case PollMutex => 10
      case ParamOpMutex => 11
      case ParamInterfaceMutex => 12
    }
  }

  datatype Op = Acquire(lock: Lock) | Release(lock: Lock)

  // ---------------------------------------------------------------- the sections of the code

  datatype Section =
    | CollectStale(stale: nat)                              // updateAdvertisedTopics, phase 1
    | CloseChannel(unsubscribes: seq<Unsubscribe>)          // phase 2: close() fires these callbacks
    | DestroySubscriber(ros: RosId)                         // phase 2: subscriptionsToRelease.clear()
    | AdvertiseNew(topics: nat)                             // phase 3
    | UpdateServices(described: nat)
    | Sweep(scanned: seq<nat>, expired: seq<nat>)
    | PollWait
    | GatewaySubscribe(replays: nat)
    | GatewayUnsubscribe(unsubscribe: Unsubscribe)
    | WebSocketSubscribe(replays: nat)
    | WebSocketUnsubscribe(unsubscribe: Unsubscribe)
    | RosCallback(ros: RosId, caches: bool)
    | ClassifyQos
    | ClientAdvertise
    | ClientUnadvertiseOrMessage
    | ServiceRequest(call: nat)
    | ServiceWorker(call: nat)
    | ParameterOp
    | ParameterInterface

  /** An onUnsubscribe: a last client makes it forget the latched flag and destroy the subscriber. */
  datatype Unsubscribe = NotLast | Last(ros: RosId)

  function Locked(l: Lock, body: seq<Op>): seq<Op> {
    [Acquire(l)] + body + [Release(l)]
  }

  function Times(n: nat, body: seq<Op>): seq<Op> {
    if n == 0 then [] else body + Times(n - 1, body)
  }

  /** onUnsubscribe: the released subscription is declared before the lock, so it dies after it. */
  function UnsubscribeOps(u: Unsubscribe): seq<Op> {
    match u
    case NotLast => Locked(SubscriptionsMutex, [])
    case Last(ros) => Locked(SubscriptionsMutex, Locked(LatchedChannelsMutex, [])) + Locked(RosCallbacks(ros), [])
  }

  function UnsubscribesOps(us: seq<Unsubscribe>): seq<Op> {
    if us == [] then [] else UnsubscribeOps(us[0]) + UnsubscribesOps(us[1..])
  }

  function PendingOps(calls: seq<nat>): seq<Op> {
    if calls == [] then [] else Locked(PendingCallMutex(calls[0]), []) + PendingOps(calls[1..])
  }

  function Ops(s: Section): seq<Op> {
    match s
    case CollectStale(n) => Locked(SubscriptionsMutex, Times(n, Locked(LatchedChannelsMutex, [])))
    case CloseChannel(us) => Locked(GatewaySubscriptions, UnsubscribesOps(us))
    case DestroySubscriber(ros) => Locked(RosCallbacks(ros), [])
    case AdvertiseNew(n) =>
      Locked(SubscriptionsMutex, Times(n, Locked(DescriptionProviderMutex, []) + Locked(ChannelRegistry, [])))
    case UpdateServices(n) =>
      Locked(ServicesMutex, [])
      + Times(n, Locked(DescriptionProviderMutex, []) + (Locked(ServicesMutex, []) + Locked(ServicesMutex, [])))
    case Sweep(scanned, expired) => Locked(PendingServiceCallsMutex, PendingOps(scanned)) + PendingOps(expired)
    case PollWait => Locked(PollMutex, [])
    case GatewaySubscribe(n) =>
      Locked(GatewaySubscriptions, Locked(SubscriptionsMutex, Times(n, Locked(ChannelRegistry, []))))
    case GatewayUnsubscribe(u) => Locked(GatewaySubscriptions, UnsubscribeOps(u))
    case WebSocketSubscribe(n) => Locked(SubscriptionsMutex, Times(n, Locked(ChannelRegistry, [])))
    case WebSocketUnsubscribe(u) => UnsubscribeOps(u)
    case RosCallback(ros, caches) =>
      Locked(RosCallbacks(ros), Locked(SubscriptionsMutex,
        (if caches then Locked(LatchedChannelsMutex, []) else []) + Locked(ChannelRegistry, [])))
    case ClassifyQos =>
      // log() may wait for the gateway session that runs the classifier.
      Locked(ChannelRegistry, Locked(LatchedChannelsMutex, []))
    case ClientAdvertise =>
      Locked(ClientAdvertisementsMutex, Locked(DescriptionProviderMutex, []) + Locked(PollMutex, []))
    case ClientUnadvertiseOrMessage => Locked(ClientAdvertisementsMutex, [])
    case ServiceRequest(_) => Locked(ServicesMutex, []) + Locked(PendingServiceCallsMutex, [])
    case ServiceWorker(call) => Locked(PendingCallMutex(call), [])
    case ParameterOp => Locked(ParamOpMutex, [])
    case ParameterInterface => Locked(ParamInterfaceMutex, [])
  }

  function OpsOfAll(sections: seq<Section>): seq<Op> {
    if sections == [] then [] else Ops(sections[0]) + OpsOfAll(sections[1..])
  }

  // ---------------------------------------------------------------- strictly increasing acquisition

  /** From these held locks (last taken last): acquire upwards only, release the last, end with none. */
  predicate Ordered(held: seq<Lock>, todo: seq<Op>)
    decreases |todo|
  {
    if todo == [] then held == []
    else match todo[0]
      case Acquire(l) => (forall h :: h in held ==> h.Rank() < l.Rank()) && Ordered(held + [l], todo[1..])
      case Release(l) => held != [] && held[|held| - 1] == l && Ordered(held[..|held| - 1], todo[1..])
  }

  /** The operations only take locks above `floor` and give all of them back. */
  ghost predicate Above(floor: int, ops: seq<Op>) {
    forall held: seq<Lock>, rest: seq<Op> ::
      (forall h :: h in held ==> h.Rank() <= floor) && Ordered(held, rest) ==> Ordered(held, ops + rest)
  }

  lemma NothingAbove(floor: int)
    ensures Above(floor, [])
  {
    forall rest: seq<Op> ensures [] + rest == rest {}
  }

  lemma ThenAbove(floor: int, xs: seq<Op>, ys: seq<Op>)
    requires Above(floor, xs) && Above(floor, ys)
    ensures Above(floor, xs + ys)
  {
    forall held: seq<Lock>, rest: seq<Op> | (forall h :: h in held ==> h.Rank() <= floor) && Ordered(held, rest)
      ensures Ordered(held, xs + ys + rest)
    {
      assert xs + ys + rest == xs + (ys + rest);
    }
  }

  lemma LockedAbove(floor: int, l: Lock, body: seq<Op>)
    requires floor < l.Rank() && Above(l.Rank(), body)
    ensures Above(floor, Locked(l, body))
  {
    forall held: seq<Lock>, rest: seq<Op> | (forall h :: h in held ==> h.Rank() <= floor) && Ordered(held, rest)
      ensures Ordered(held, Locked(l, body) + rest)
    {
      LockedFits(floor, l, body, held, rest);
    }
  }

  lemma LockedFits(floor: int, l: Lock, body: seq<Op>, held: seq<Lock>, rest: seq<Op>)
    requires floor < l.Rank() && Above(l.Rank(), body)
    requires (forall h :: h in held ==> h.Rank() <= floor) && Ordered(held, rest)
    ensures Ordered(held, Locked(l, body) + rest)
  {
    var after := [Release(l)] + rest;
    assert after[1..] == rest && (held + [l])[..|held|] == held;
    assert Ordered(held + [l], after);
    assert Ordered(held + [l], body + after);
    var all := Locked(l, body) + rest;
    assert all[0] == Acquire(l) && all[1..] == body + after;
  }

  lemma Leaf(floor: int, l: Lock)
    requires floor < l.Rank()
    ensures Above(floor, Locked(l, []))
  {
    NothingAbove(l.Rank());
    LockedAbove(floor, l, []);
  }

  lemma {:induction false} TimesAbove(floor: int, n: nat, body: seq<Op>)
    requires Above(floor, body)
    ensures Above(floor, Times(n, body))
  {
    if n == 0 {
      NothingAbove(floor);
    } else {
      TimesAbove(floor, n - 1, body);
      ThenAbove(floor, body, Times(n - 1, body));
    }
  }

  lemma {:induction false} PendingAbove(floor: int, calls: seq<nat>)
    requires floor < 9
    ensures Above(floor, PendingOps(calls))
  {
    if calls == [] {
      NothingAbove(floor);
    } else {
      Leaf(floor, PendingCallMutex(calls[0]));
      PendingAbove(floor, calls[1..]);
      ThenAbove(floor, Locked(PendingCallMutex(calls[0]), []), PendingOps(calls[1..]));
    }
  }

  lemma UnsubscribeAbove(floor: int, u: Unsubscribe)
    requires floor < 1
    ensures Above(floor, UnsubscribeOps(u))
  {
    if u.NotLast? {
      Leaf(floor, SubscriptionsMutex);
    } else {
      Leaf(2, LatchedChannelsMutex);
      LockedAbove(floor, SubscriptionsMutex, Locked(LatchedChannelsMutex, []));
      Leaf(floor, RosCallbacks(u.ros));
      ThenAbove(floor, Locked(SubscriptionsMutex, Locked(LatchedChannelsMutex, [])), Locked(RosCallbacks(u.ros), []));
    }
  }

  lemma {:induction false} UnsubscribesAbove(floor: int, us: seq<Unsubscribe>)
    requires floor < 1
    ensures Above(floor, UnsubscribesOps(us))
  {
    if us == [] {
      NothingAbove(floor);
    } else {
      UnsubscribeAbove(floor, us[0]);
      UnsubscribesAbove(floor, us[1..]);
      ThenAbove(floor, UnsubscribeOps(us[0]), UnsubscribesOps(us[1..]));
    }
  }

  lemma SubscribeAbove(floor: int, n: nat)
    requires floor < 2
    ensures Above(floor, Locked(SubscriptionsMutex, Times(n, Locked(ChannelRegistry, []))))
  {
    Leaf(2, ChannelRegistry);
    TimesAbove(2, n, Locked(ChannelRegistry, []));
    LockedAbove(floor, SubscriptionsMutex, Times(n, Locked(ChannelRegistry, [])));
  }

  lemma PollSectionAbove(s: Section)
    requires s.AdvertiseNew? || s.UpdateServices? || s.Sweep? || s.CollectStale?
    ensures Above(-1, Ops(s))
  {
    match s {
      case CollectStale(n) =>
        Leaf(2, LatchedChannelsMutex);
        TimesAbove(2, n, Locked(LatchedChannelsMutex, []));
        LockedAbove(-1, SubscriptionsMutex, Times(n, Locked(LatchedChannelsMutex, [])));
      case AdvertiseNew(n) =>
        Leaf(2, DescriptionProviderMutex);
        Leaf(2, ChannelRegistry);
        var one := Locked(DescriptionProviderMutex, []) + Locked(ChannelRegistry, []);
        ThenAbove(2, Locked(DescriptionProviderMutex, []), Locked(ChannelRegistry, []));
        TimesAbove(2, n, one);
        LockedAbove(-1, SubscriptionsMutex, Times(n, one));
      case UpdateServices(n) =>
        var services, description := Locked(ServicesMutex, []), Locked(DescriptionProviderMutex, []);
        Leaf(-1, ServicesMutex);
        Leaf(-1, DescriptionProviderMutex);
        ThenAbove(-1, services, services);
        ThenAbove(-1, description, services + services);
        TimesAbove(-1, n, description + (services + services));
        ThenAbove(-1, services, Times(n, description + (services + services)));
      case Sweep(scanned, expired) =>
        PendingAbove(8, scanned);
        LockedAbove(-1, PendingServiceCallsMutex, PendingOps(scanned));
        PendingAbove(-1, expired);
        ThenAbove(-1, Locked(PendingServiceCallsMutex, PendingOps(scanned)), PendingOps(expired));
    }
  }

  lemma CallbackSectionAbove(s: Section)
    requires s.RosCallback? || s.ClientAdvertise? || s.ClassifyQos?
    ensures Above(-1, Ops(s))
  {
    match s {
      case RosCallback(ros, caches) =>
        var latched := if caches then Locked(LatchedChannelsMutex, []) else [];
        Leaf(2, LatchedChannelsMutex);
        NothingAbove(2);
        Leaf(2, ChannelRegistry);
        ThenAbove(2, latched, Locked(ChannelRegistry, []));
        LockedAbove(1, SubscriptionsMutex, latched + Locked(ChannelRegistry, []));
        LockedAbove(-1, RosCallbacks(ros), Locked(SubscriptionsMutex, latched + Locked(ChannelRegistry, [])));
      case ClientAdvertise =>
        Leaf(3, DescriptionProviderMutex);
        Leaf(3, PollMutex);
        ThenAbove(3, Locked(DescriptionProviderMutex, []), Locked(PollMutex, []));
        LockedAbove(-1, ClientAdvertisementsMutex, Locked(DescriptionProviderMutex, []) + Locked(PollMutex, []));
      case ClassifyQos =>
        Leaf(5, LatchedChannelsMutex);
        LockedAbove(-1, ChannelRegistry, Locked(LatchedChannelsMutex, []));
    }
  }

  /** Each section of the code takes its locks in strictly increasing rank and returns them all. */
  lemma SectionAbove(s: Section)
    ensures Above(-1, Ops(s))
  {
    match s {
      case CollectStale(_) => PollSectionAbove(s);
      case AdvertiseNew(_) => PollSectionAbove(s);
      case UpdateServices(_) => PollSectionAbove(s);
      case Sweep(_, _) => PollSectionAbove(s);
      case CloseChannel(us) =>
        UnsubscribesAbove(0, us);
        LockedAbove(-1, GatewaySubscriptions, UnsubscribesOps(us));
      case DestroySubscriber(ros) => Leaf(-1, RosCallbacks(ros));
      case PollWait => Leaf(-1, PollMutex);
      case GatewaySubscribe(n) =>
        SubscribeAbove(0, n);
        LockedAbove(-1, GatewaySubscriptions, Locked(SubscriptionsMutex, Times(n, Locked(ChannelRegistry, []))));
      case GatewayUnsubscribe(u) =>
        UnsubscribeAbove(0, u);
        LockedAbove(-1, GatewaySubscriptions, UnsubscribeOps(u));
      case WebSocketSubscribe(n) => SubscribeAbove(-1, n);
      case WebSocketUnsubscribe(u) => UnsubscribeAbove(-1, u);
      case RosCallback(_, _) => CallbackSectionAbove(s);
      case ClassifyQos => CallbackSectionAbove(s);
      case ClientAdvertise => CallbackSectionAbove(s);
      case ClientUnadvertiseOrMessage => Leaf(-1, ClientAdvertisementsMutex);
      case ServiceRequest(_) =>
        Leaf(-1, ServicesMutex);
        Leaf(-1, PendingServiceCallsMutex);
        ThenAbove(-1, Locked(ServicesMutex, []), Locked(PendingServiceCallsMutex, []));
      case ServiceWorker(call) => Leaf(-1, PendingCallMutex(call));
      case ParameterOp => Leaf(-1, ParamOpMutex);
      case ParameterInterface => Leaf(-1, ParamInterfaceMutex);
    }
  }

  lemma {:induction false} SectionsOrdered(sections: seq<Section>)
    ensures Ordered([], OpsOfAll(sections))
  {
    if sections != [] {
      SectionsOrdered(sections[1..]);
      SectionAbove(sections[0]);
    }
  }

  // ---------------------------------------------------------------- threads

  datatype Thread = Thread(held: seq<Lock>, todo: seq<Op>)
  type System = seq<Thread>

  ghost predicate Free(sys: System, l: Lock) {
    forall t :: 0 <= t < |sys| ==> l !in sys[t].held
  }

  /** The next operation of thread t can be performed. */
  ghost predicate CanStep(sys: System, t: int) {
    && 0 <= t < |sys|
    && sys[t].todo != []
    && (sys[t].todo[0].Acquire? ==> Free(sys, sys[t].todo[0].lock))
    && (sys[t].todo[0].Release? ==> sys[t].held != [] && sys[t].held[|sys[t].held| - 1] == sys[t].todo[0].lock)
  }

  ghost function Step(sys: System, t: int): System
    requires CanStep(sys, t)
  {
    var th := sys[t];
    sys[t := match th.todo[0]
             case Acquire(l) => Thread(th.held + [l], th.todo[1..])
             case Release(l) => Thread(th.held[..|th.held| - 1], th.todo[1..])]
  }

  /** A schedule: which thread moves next. */
  ghost predicate Schedule(sys: System, ts: seq<int>)
    decreases |ts|
  {
    ts == [] || (CanStep(sys, ts[0]) && Schedule(Step(sys, ts[0]), ts[1..]))
  }

  ghost function RunSchedule(sys: System, ts: seq<int>): System
    requires Schedule(sys, ts)
    decreases |ts|
  {
    if ts == [] then sys else RunSchedule(Step(sys, ts[0]), ts[1..])
  }

  /** Any number of threads, each about to run any list of the bridge's sections. */
  function Begin(programs: seq<seq<Section>>): System {
    seq(|programs|, i requires 0 <= i < |programs| => Thread([], OpsOfAll(programs[i])))
  }

  ghost predicate Disciplined(sys: System) {
    forall t :: 0 <= t < |sys| ==> Ordered(sys[t].held, sys[t].todo)
  }

  lemma {:induction false} DisciplineKept(sys: System, ts: seq<int>)
    requires Disciplined(sys) && Schedule(sys, ts)
    ensures Disciplined(RunSchedule(sys, ts)) && |RunSchedule(sys, ts)| == |sys|
    decreases |ts|
  {
    if ts != [] {
      DisciplineKept(Step(sys, ts[0]), ts[1..]);
    }
  }

  /** Thread t waits for a lock that thread u holds. */
  ghost predicate WaitsFor(sys: System, t: int, u: int) {
    && 0 <= t < |sys| && 0 <= u < |sys|
    && sys[t].todo != [] && sys[t].todo[0].Acquire?
    && sys[t].todo[0].lock in sys[u].held
  }

  /** Whoever holds what a waiting thread wants can move, or waits for a lock of higher rank. */
  lemma SomeoneMoves(sys: System, t: int) returns (u: int)
    requires Disciplined(sys) && 0 <= t < |sys| && sys[t].todo != []
    ensures CanStep(sys, u)
    decreases if sys[t].todo[0].Acquire? then 13 - sys[t].todo[0].lock.Rank() else 0
  {
    if CanStep(sys, t) {
      return t;
    }
    var l := sys[t].todo[0].lock;
    var v :| 0 <= v < |sys| && l in sys[v].held;
    assert sys[v].todo != [];
    if sys[v].todo[0].Release? {
      return v;
    }
    u := SomeoneMoves(sys, v);
  }

  /**
   Deadlock freedom: after any schedule of any number of threads running any of the bridge's
   sections, either every thread has finished or some thread can take its next step.
   */
  lemma NoDeadlock(programs: seq<seq<Section>>, ts: seq<int>)
    requires Schedule(Begin(programs), ts)
    ensures var sys := RunSchedule(Begin(programs), ts);
            (forall t :: 0 <= t < |sys| ==> sys[t].todo == []) || (exists u :: CanStep(sys, u))
  {
    var sys := RunSchedule(Begin(programs), ts);
    ReachDisciplined(programs, ts);
    if t :| 0 <= t < |sys| && sys[t].todo != [] {
      var u := SomeoneMoves(sys, t);
    }
  }

  lemma ReachDisciplined(programs: seq<seq<Section>>, ts: seq<int>)
    requires Schedule(Begin(programs), ts)
    ensures Disciplined(RunSchedule(Begin(programs), ts))
  {
    forall t | 0 <= t < |programs| ensures Ordered([], OpsOfAll(programs[t])) {
      SectionsOrdered(programs[t]);
    }
    DisciplineKept(Begin(programs), ts);
  }

  /** Each thread of the list waits for the next one, and the last one for the first. */
  ghost predicate CircularWait(sys: System, circle: seq<int>) {
    && circle != []
    && (forall i :: 0 <= i < |circle| - 1 ==> WaitsFor(sys, circle[i], circle[i + 1]))
    && WaitsFor(sys, circle[|circle| - 1], circle[0])
  }

  /** No reachable state has threads that wait for each other in a circle. */
  lemma NoCyclicWait(programs: seq<seq<Section>>, ts: seq<int>, circle: seq<int>)
    requires Schedule(Begin(programs), ts)
    ensures !CircularWait(RunSchedule(Begin(programs), ts), circle)
  {
    var sys := RunSchedule(Begin(programs), ts);
    ReachDisciplined(programs, ts);
    if CircularWait(sys, circle) {
      RanksRise(sys, circle, 0);
      RanksRise(sys, circle, |circle| - 1);
      WaitRaisesRank(sys, circle[|circle| - 1], circle[0]);
      assert false;
    }
  }

  ghost function WantedRank(sys: System, t: int): int {
    if 0 <= t < |sys| && sys[t].todo != [] then sys[t].todo[0].lock.Rank() else -1
  }

  lemma WaitRaisesRank(sys: System, t: int, u: int)
    requires Disciplined(sys) && WaitsFor(sys, t, u)
    requires sys[u].todo != [] ==> sys[u].todo[0].Acquire?
    ensures WantedRank(sys, t) < WantedRank(sys, u)
  {
  }

  lemma {:induction false} RanksRise(sys: System, circle: seq<int>, k: nat)
    requires Disciplined(sys) && CircularWait(sys, circle) && k < |circle|
    ensures WantedRank(sys, circle[0]) + k <= WantedRank(sys, circle[k])
    ensures 0 <= circle[k] < |sys| && sys[circle[k]].todo != [] && sys[circle[k]].todo[0].Acquire?
  {
    if k > 0 {
      RanksRise(sys, circle, k - 1);
      assert WaitsFor(sys, circle[k - 1], circle[k]);
      assert k == |circle| - 1 || WaitsFor(sys, circle[k], circle[k + 1]);
      WaitRaisesRank(sys, circle[k - 1], circle[k]);
    } else {
      assert |circle| == 1 || WaitsFor(sys, circle[0], circle[1]);
    }
  }

  // ---------------------------------------------------------------- why close() must stay outside

  /** Closing a channel while `_subscriptionsMutex` is held, against a gateway subscribe: both get stuck. */
  lemma CloseUnderLockDeadlocks() returns (ts: seq<int>)
    ensures var sys := [Thread([], Locked(SubscriptionsMutex, Ops(CloseChannel([])))), Thread([], Ops(GatewaySubscribe(0)))];
            && Schedule(sys, ts)
            && var stuck := RunSchedule(sys, ts);
               && WaitsFor(stuck, 0, 1) && WaitsFor(stuck, 1, 0)
               && !exists u :: CanStep(stuck, u)
  {
    var sys := [Thread([], Locked(SubscriptionsMutex, Ops(CloseChannel([])))), Thread([], Ops(GatewaySubscribe(0)))];
    ts := [0, 1];
    assert ts[1..] == [1] && [1][1..] == [];
    var mid := Step(sys, 0);
    assert Free(sys, SubscriptionsMutex);
    assert mid[0].held == [SubscriptionsMutex] && mid[0].todo[0] == Acquire(GatewaySubscriptions);
    assert mid[1] == sys[1];
    assert Free(mid, GatewaySubscriptions);
    var stuck := Step(mid, 1);
    assert stuck[1].held == [GatewaySubscriptions] && stuck[1].todo[0] == Acquire(SubscriptionsMutex);
    assert Schedule(mid, [1]) && RunSchedule(mid, [1]) == stuck;
    assert SubscriptionsMutex in stuck[0].held && GatewaySubscriptions in stuck[1].held;
  }

  /**
   Destroying a subscriber while `_subscriptionsMutex` is held, against a callback of it that is
   running: both get stuck.
   */
  lemma DestroyUnderLockDeadlocks(ros: RosId, caches: bool) returns (ts: seq<int>)
    ensures var sys := [Thread([], Locked(SubscriptionsMutex, Ops(DestroySubscriber(ros)))),
                        Thread([], Ops(RosCallback(ros, caches)))];
            && Schedule(sys, ts)
            && var stuck := RunSchedule(sys, ts);
               && WaitsFor(stuck, 0, 1) && WaitsFor(stuck, 1, 0)
               && !exists u :: CanStep(stuck, u)
  {
    var sys := [Thread([], Locked(SubscriptionsMutex, Ops(DestroySubscriber(ros)))),
                Thread([], Ops(RosCallback(ros, caches)))];
    ts := [0, 1];
    assert ts[1..] == [1] && [1][1..] == [];
    assert Free(sys, SubscriptionsMutex);
    var mid := Step(sys, 0);
    assert mid[0].held == [SubscriptionsMutex] && mid[0].todo[0] == Acquire(RosCallbacks(ros));
    assert mid[1] == sys[1] && mid[1].todo[0] == Acquire(RosCallbacks(ros));
    assert Free(mid, RosCallbacks(ros));
    var stuck := Step(mid, 1);
    assert stuck[1].held == [RosCallbacks(ros)] && stuck[1].todo[0] == Acquire(SubscriptionsMutex);
    assert Schedule(mid, [1]) && RunSchedule(mid, [1]) == stuck;
    assert SubscriptionsMutex in stuck[0].held && RosCallbacks(ros) in stuck[1].held;
  }

  /**
   A classifier that took `_subscriptionsMutex`, against a callback that logs a message: both get
   stuck. This is why latched channels have a mutex of their own.
   */
  lemma ClassifierWithMutexDeadlocks(ros: RosId) returns (ts: seq<int>)
    ensures var sys := [Thread([], Ops(RosCallback(ros, false))),
                        Thread([], Locked(ChannelRegistry, Locked(SubscriptionsMutex, [])))];
            && Schedule(sys, ts)
            && var stuck := RunSchedule(sys, ts);
               && WaitsFor(stuck, 0, 1) && WaitsFor(stuck, 1, 0)
               && !exists u :: CanStep(stuck, u)
  {
    var sys := [Thread([], Ops(RosCallback(ros, false))),
                Thread([], Locked(ChannelRegistry, Locked(SubscriptionsMutex, [])))];
    ts := [0, 0, 1];
    assert ts[1..] == [0, 1] && [0, 1][1..] == [1] && [1][1..] == [];
    assert Free(sys, RosCallbacks(ros)) && sys[0].todo[0] == Acquire(RosCallbacks(ros));
    var a := Step(sys, 0);
    assert a[0].held == [RosCallbacks(ros)] && a[0].todo[0] == Acquire(SubscriptionsMutex) && a[1] == sys[1];
    assert Free(a, SubscriptionsMutex);
    var b := Step(a, 0);
    assert b[0].held == [RosCallbacks(ros), SubscriptionsMutex] && b[0].todo[0] == Acquire(ChannelRegistry) && b[1] == sys[1];
    assert Free(b, ChannelRegistry) && b[1].todo[0] == Acquire(ChannelRegistry);
    var stuck := Step(b, 1);
    assert stuck[0] == b[0];
    assert stuck[1].held == [ChannelRegistry] && stuck[1].todo[0] == Acquire(SubscriptionsMutex);
    assert Schedule(b, [1]) && RunSchedule(b, [1]) == stuck;
    assert Schedule(a, [0, 1]) && RunSchedule(a, [0, 1]) == stuck;
    assert SubscriptionsMutex in stuck[0].held && ChannelRegistry in stuck[1].held;
  }
}
