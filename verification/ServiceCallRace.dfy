/**
 Client service calls: the request handler, one detached worker per call and the poll thread's
 sweep share one responder per call. A transition system over all their interleavings.
 */
module ServiceCallRace {
  import opened Wrappers

  type CallId = nat
  type Time = int

  datatype Answer = Rejected | Result | CallFailed | TimedOut | Dropped

  /** The handler holds the responder while it checks the request. */
  datatype Handler = Checking | Emplaced | Listed | Returned
  datatype Worker = NoWorker | Calling | Holding | Finished

  /** `slot`: the shared PendingServiceCall still holds the responder. */
  datatype Call = Call(handler: Handler, slot: bool, worker: Worker)

  datatype Entry = Entry(deadline: Time, call: CallId)

  /**
   The poll thread in sweepExpiredServiceCalls. `it` is the scan's position in the list. History:
   `original` is the list as the scan found it, `seen` says of each entry that was inspected so far
   whether its slot was full at that moment.
   */
  datatype Sweeper =
    | Away
    | Scanning(now: Time, it: nat, expired: seq<CallId>, original: seq<Entry>, seen: seq<bool>)
    | Taking(now: Time, expired: seq<CallId>, hand: Option<CallId>, original: seq<Entry>)

  datatype State = State(
    calls: map<CallId, Call>,
    pending: seq<Entry>,
    sweeper: Sweeper,
    answers: seq<(CallId, Answer)>,
    down: bool                        // the bridge, and with it the pending list, is destroyed
  )

  datatype Event =
    | Request(id: CallId)
    | Reject(id: CallId)              // unknown service, wrong encoding, or no type information
    | Emplace(id: CallId)
    | List(id: CallId, deadline: Time)
    | Spawn(id: CallId, started: bool) // starting the worker thread may fail
    | WorkerTakes(id: CallId)
    | WorkerAnswers(id: CallId, ok: bool)
    | SweepStarts(time: Time)
    | SweepInspects
    | SweepUnlocks
    | SweepTakes
    | SweepAnswers
    | SweepReturns
    | BridgeDestroyed
    | OwnerlessDropped(id: CallId)     // the last shared_ptr goes and takes a responder with it

  /** The poll thread's own steps of a sweep that has begun. */
  predicate SweepStep(e: Event) {
    e.SweepInspects? || e.SweepUnlocks? || e.SweepTakes? || e.SweepAnswers? || e.SweepReturns?
  }

  /** The inspected entries that were open and not due. */
  function Kept(original: seq<Entry>, seen: seq<bool>, now: Time): seq<Entry>
    requires |seen| <= |original|
  {
    if seen == [] then []
    else
      var k := |seen| - 1;
      Kept(original, seen[..k], now) + if seen[k] && original[k].deadline > now then [original[k]] else []
  }

  /** The calls of the inspected entries that were open and due. */
  function Overdue(original: seq<Entry>, seen: seq<bool>, now: Time): seq<CallId>
    requires |seen| <= |original|
  {
    if seen == [] then []
    else
      var k := |seen| - 1;
      Overdue(original, seen[..k], now) + if seen[k] && original[k].deadline <= now then [original[k].call] else []
  }

  predicate Has(s: State, id: CallId, h: Handler) {
    id in s.calls && s.calls[id].handler == h
  }

  predicate InList(pending: seq<Entry>, id: CallId) {
    exists i :: 0 <= i < |pending| && pending[i].call == id
  }

  predicate InSweep(sw: Sweeper, id: CallId) {
    !sw.Away? && id in sw.expired
  }

  predicate Enabled(s: State, e: Event) {
    match e
    case Request(id) => id !in s.calls && !s.down
    case Reject(id) => Has(s, id, Checking)
    case Emplace(id) => Has(s, id, Checking)
    case List(id, _) => Has(s, id, Emplaced) && !s.sweeper.Scanning? && !s.down
    case Spawn(id, _) => Has(s, id, Listed)
    case WorkerTakes(id) => id in s.calls && s.calls[id].worker.Calling?
    case WorkerAnswers(id, _) => id in s.calls && s.calls[id].worker.Holding?
    case SweepStarts(_) => s.sweeper.Away? && !s.down
    case SweepInspects => s.sweeper.Scanning? && s.sweeper.it < |s.pending|
    case SweepUnlocks => s.sweeper.Scanning? && s.sweeper.it == |s.pending|
    case SweepTakes => s.sweeper.Taking? && s.sweeper.hand.None? && s.sweeper.expired != []
    case SweepAnswers => s.sweeper.Taking? && s.sweeper.hand.Some?
    case SweepReturns => s.sweeper.Taking? && s.sweeper.hand.None? && s.sweeper.expired == []
    case BridgeDestroyed =>
      // The poll thread is joined and the transports are stopped before the list goes.
      s.sweeper.Away? && !s.down && forall id :: id in s.calls ==> s.calls[id].handler.Returned?
    case OwnerlessDropped(id) =>
      && id in s.calls && s.calls[id].slot && s.calls[id].handler.Returned?
      && !s.calls[id].worker.Calling? && !InList(s.pending, id) && !InSweep(s.sweeper, id)
  }

  function Update(s: State, id: CallId, c: Call): State {
    s.(calls := s.calls[id := c])
  }

  function Respond(s: State, id: CallId, a: Answer): State {
    s.(answers := s.answers + [(id, a)])
  }

  predicate Full(s: State, id: CallId) {
    id in s.calls && s.calls[id].slot
  }

  /** One turn of the scan: erase the entry at the iterator, or step over it. */
  function Inspect(s: State): State
    requires Enabled(s, SweepInspects)
  {
    var sw := s.sweeper;
    var entry := s.pending[sw.it];
    var erased := s.pending[..sw.it] + s.pending[sw.it + 1..];
    if !Full(s, entry.call) then
      s.(pending := erased, sweeper := sw.(seen := sw.seen + [false]))
    else if entry.deadline <= sw.now then
      s.(pending := erased, sweeper := sw.(seen := sw.seen + [true], expired := sw.expired + [entry.call]))
    else s.(sweeper := sw.(seen := sw.seen + [true], it := sw.it + 1))
  }

  function Apply(s: State, e: Event): State
    requires Enabled(s, e)
  {
    match e
    case Request(id) => Update(s, id, Call(Checking, false, NoWorker))
    case Reject(id) => Respond(Update(s, id, s.calls[id].(handler := Returned)), id, Rejected)
    case Emplace(id) => Update(s, id, s.calls[id].(handler := Emplaced, slot := true))
    case List(id, deadline) =>
      Update(s, id, s.calls[id].(handler := Listed)).(pending := s.pending + [Entry(deadline, id)])
    case Spawn(id, started) =>
      Update(s, id, s.calls[id].(handler := Returned, worker := if started then Calling else NoWorker))
    case WorkerTakes(id) =>
      Update(s, id, if s.calls[id].slot then s.calls[id].(slot := false, worker := Holding)
                    else s.calls[id].(worker := Finished))
    case WorkerAnswers(id, ok) =>
      Respond(Update(s, id, s.calls[id].(worker := Finished)), id, if ok then Result else CallFailed)
    case SweepStarts(time) => s.(sweeper := Scanning(time, 0, [], s.pending, []))
    case SweepInspects => Inspect(s)
    case SweepUnlocks => s.(sweeper := Taking(s.sweeper.now, s.sweeper.expired, None, s.sweeper.original))
    case SweepTakes =>
      var id := s.sweeper.expired[0];
      if id in s.calls && s.calls[id].slot then
        Update(s, id, s.calls[id].(slot := false))
          .(sweeper := s.sweeper.(expired := s.sweeper.expired[1..], hand := Some(id)))
      else s.(sweeper := s.sweeper.(expired := s.sweeper.expired[1..]))
    case SweepAnswers =>
      Respond(s.(sweeper := s.sweeper.(hand := None)), s.sweeper.hand.value, TimedOut)
    case SweepReturns => s.(sweeper := Away)
    case BridgeDestroyed => s.(pending := [], down := true)
    case OwnerlessDropped(id) => Respond(Update(s, id, s.calls[id].(slot := false)), id, Dropped)
  }

  const START := State(map[], [], Away, [], false)

  predicate Legal(s: State, es: seq<Event>)
    decreases |es|
  {
    es == [] || (Enabled(s, es[0]) && Legal(Apply(s, es[0]), es[1..]))
  }

  function Run(s: State, es: seq<Event>): State
    requires Legal(s, es)
    decreases |es|
  {
    if es == [] then s else Run(Apply(s, es[0]), es[1..])
  }

  // ---------------------------------------------------------------- where the responder is

  function One(b: bool): nat {
    if b then 1 else 0
  }

  function AnswersTo(answers: seq<(CallId, Answer)>, id: CallId): nat {
    if answers == [] then 0
    else AnswersTo(answers[..|answers| - 1], id) + One(answers[|answers| - 1].0 == id)
  }

  /** In how many places the responder of a call is: handler, slot, worker, sweeper, used up. */
  function Places(s: State, id: CallId): nat
    requires id in s.calls
  {
    One(s.calls[id].handler.Checking?) + One(s.calls[id].slot) + One(s.calls[id].worker.Holding?)
    + One(s.sweeper.Taking? && s.sweeper.hand == Some(id)) + AnswersTo(s.answers, id)
  }

  /** Someone who will still look at the slot, and answer if it is full. */
  predicate Owed(s: State, id: CallId)
    requires id in s.calls
  {
    || s.calls[id].handler.Emplaced? || s.calls[id].worker.Calling? || InList(s.pending, id) || InSweep(s.sweeper, id)
  }

  ghost predicate Inv(s: State) {
    && (forall id :: id in s.calls ==> Places(s, id) == 1)
    && (forall id :: id !in s.calls ==> AnswersTo(s.answers, id) == 0)
    && (forall id :: id in s.calls && s.calls[id].slot && !s.down ==> Owed(s, id))
    && Order(s) && SweepInv(s) && EntriesMade(s) && ExpiredDue(s.sweeper)
  }

  /** Some entry of the sweep's list is due and for this call. */
  ghost predicate DueCall(sw: Sweeper, id: CallId)
    requires !sw.Away?
  {
    exists i :: Due(sw, i) && sw.original[i].call == id
  }

  ghost predicate ExpiredDue(sw: Sweeper) {
    !sw.Away? ==>
      && (forall id :: id in sw.expired ==> DueCall(sw, id))
      && (sw.Taking? && sw.hand.Some? ==> DueCall(sw, sw.hand.value))
  }

  /** A worker is started last; nothing begins once the bridge is gone. */
  ghost predicate Order(s: State) {
    && (forall id :: id in s.calls && !s.calls[id].handler.Returned? ==> s.calls[id].worker.NoWorker?)
    && (s.sweeper.Taking? && s.sweeper.hand.Some? ==> s.sweeper.hand.value in s.calls)
    && (s.down ==> s.sweeper.Away? && s.pending == [] && forall id :: id in s.calls ==> s.calls[id].handler.Returned?)
  }

  /** An entry that the sweep must answer: listed when it began, with its deadline passed. */
  predicate Due(sw: Sweeper, i: int)
    requires !sw.Away?
  {
    0 <= i < |sw.original| && sw.original[i].deadline <= sw.now
  }

  /** An entry is made after its slot was filled, and slots are filled once. */
  predicate Made(s: State, entry: Entry) {
    entry.call in s.calls && (s.calls[entry.call].handler.Listed? || s.calls[entry.call].handler.Returned?)
  }

  ghost predicate EntriesMade(s: State) {
    && (forall i :: 0 <= i < |s.pending| ==> Made(s, s.pending[i]))
    && (!s.sweeper.Away? ==> forall i :: 0 <= i < |s.sweeper.original| ==> Made(s, s.sweeper.original[i]))
  }

  /** Where a scan stands: what it has kept, what it has not inspected yet, and what it has collected. */
  predicate Scanned(pending: seq<Entry>, sw: Sweeper)
    requires sw.Scanning?
  {
    && |sw.seen| <= |sw.original|
    && pending == Kept(sw.original, sw.seen, sw.now) + sw.original[|sw.seen|..]
    && sw.it == |Kept(sw.original, sw.seen, sw.now)|
    && sw.expired == Overdue(sw.original, sw.seen, sw.now)
  }

  ghost predicate SweepInv(s: State) {
    var sw := s.sweeper;
    match sw
    case Away => true
    case Scanning(_, _, _, original, seen) =>
      Scanned(s.pending, sw) && (forall i :: 0 <= i < |seen| && !seen[i] ==> !Full(s, original[i].call))
    case Taking(_, expired, _, original) =>
      forall i :: Due(sw, i) ==> !Full(s, original[i].call) || original[i].call in expired
  }

  // ---------------------------------------------------------------- every event keeps it

  lemma AnswersMore(answers: seq<(CallId, Answer)>, a: (CallId, Answer), id: CallId)
    ensures AnswersTo(answers + [a], id) == AnswersTo(answers, id) + One(a.0 == id)
  {
    assert (answers + [a])[..|answers|] == answers;
  }

  lemma PlacesInScan(s: State, e: Event, id: CallId)
    requires Enabled(s, e) && (e.SweepStarts? || e.SweepInspects? || e.SweepUnlocks? || e.SweepReturns?)
    requires id in s.calls && Places(s, id) == 1
    ensures id in Apply(s, e).calls && Places(Apply(s, e), id) == 1
  {
  }

  lemma PlacesInTimeout(s: State, id: CallId)
    requires Enabled(s, SweepTakes) && id in s.calls && Places(s, id) == 1
    ensures id in Apply(s, SweepTakes).calls && Places(Apply(s, SweepTakes), id) == 1
  {
  }

  lemma PlacesWhenTimedOut(s: State, id: CallId)
    requires Enabled(s, SweepAnswers) && id in s.calls && Places(s, id) == 1
    ensures id in Apply(s, SweepAnswers).calls && Places(Apply(s, SweepAnswers), id) == 1
  {
    AnswersMore(s.answers, (s.sweeper.hand.value, TimedOut), id);
  }

  /** Events of the SDK's handler threads. */
  predicate HandlerEvent(e: Event) {
    e.Request? || e.Reject? || e.Emplace? || e.List? || e.Spawn?
  }

  lemma PlacesInHandler(s: State, e: Event, id: CallId)
    requires Order(s) && Enabled(s, e) && HandlerEvent(e) && id in Apply(s, e).calls
    requires if id in s.calls then Places(s, id) == 1 else AnswersTo(s.answers, id) == 0
    ensures Places(Apply(s, e), id) == 1
  {
    if e.Reject? {
      AnswersMore(s.answers, (e.id, Rejected), id);
    }
  }

  lemma PlacesWhenTaken(s: State, e: Event, id: CallId)
    requires Enabled(s, e) && (e.WorkerTakes? || e.BridgeDestroyed?) && id in s.calls && Places(s, id) == 1
    ensures id in Apply(s, e).calls && Places(Apply(s, e), id) == 1
  {
  }

  lemma PlacesWhenAnswered(s: State, e: Event, id: CallId)
    requires Enabled(s, e) && e.WorkerAnswers? && id in s.calls && Places(s, id) == 1
    ensures id in Apply(s, e).calls && Places(Apply(s, e), id) == 1
  {
    AnswersMore(s.answers, (e.id, if e.ok then Result else CallFailed), id);
  }

  lemma PlacesWhenDropped(s: State, e: Event, id: CallId)
    requires Enabled(s, e) && e.OwnerlessDropped? && id in s.calls && Places(s, id) == 1
    ensures id in Apply(s, e).calls && Places(Apply(s, e), id) == 1
  {
    AnswersMore(s.answers, (e.id, Dropped), id);
  }

  lemma NoAnswerBefore(s: State, e: Event, id: CallId)
    requires Order(s) && Enabled(s, e) && id !in Apply(s, e).calls && AnswersTo(s.answers, id) == 0
    ensures AnswersTo(Apply(s, e).answers, id) == 0
  {
    var t := Apply(s, e);
    if t.answers != s.answers {
      AnswersMore(s.answers, t.answers[|s.answers|], id);
    }
  }

  lemma PlacesStep(s: State, e: Event)
    requires Inv(s) && Enabled(s, e)
    ensures var t := Apply(s, e);
            && (forall id :: id in t.calls ==> Places(t, id) == 1)
            && (forall id :: id !in t.calls ==> AnswersTo(t.answers, id) == 0)
  {
    var t := Apply(s, e);
    forall id ensures if id in t.calls then Places(t, id) == 1 else AnswersTo(t.answers, id) == 0 {
      if id !in t.calls {
        NoAnswerBefore(s, e, id);
      } else if e.SweepTakes? {
        PlacesInTimeout(s, id);
      } else if e.SweepAnswers? {
        PlacesWhenTimedOut(s, id);
      } else if SweepStep(e) || e.SweepStarts? {
        PlacesInScan(s, e, id);
      } else if HandlerEvent(e) {
        PlacesInHandler(s, e, id);
      } else if e.WorkerTakes? || e.BridgeDestroyed? {
        PlacesWhenTaken(s, e, id);
      } else if e.WorkerAnswers? {
        PlacesWhenAnswered(s, e, id);
      } else {
        PlacesWhenDropped(s, e, id);
      }
    }
  }

  /** The iterator stands at the first entry that was not inspected yet. */
  lemma InspectsNext(s: State)
    requires SweepInv(s) && Enabled(s, SweepInspects)
    ensures var sw := s.sweeper;
            && |sw.seen| < |sw.original| && s.pending[sw.it] == sw.original[|sw.seen|]
            && s.pending[..sw.it] == Kept(sw.original, sw.seen, sw.now)
            && s.pending[sw.it + 1..] == sw.original[|sw.seen| + 1..]
  {
  }

  lemma OneMoreSeen(original: seq<Entry>, seen: seq<bool>, now: Time, full: bool)
    requires |seen| < |original|
    ensures var e := original[|seen|];
            && Kept(original, seen + [full], now) == Kept(original, seen, now) + (if full && e.deadline > now then [e] else [])
            && Overdue(original, seen + [full], now)
               == Overdue(original, seen, now) + if full && e.deadline <= now then [e.call] else []
  {
    assert (seen + [full])[..|seen|] == seen;
  }

  /** The overdue calls come from due entries, and every open due entry is among them. */
  lemma {:induction false} OverdueIff(original: seq<Entry>, seen: seq<bool>, now: Time)
    requires |seen| <= |original|
    ensures forall i :: 0 <= i < |seen| && seen[i] && original[i].deadline <= now ==>
              original[i].call in Overdue(original, seen, now)
    ensures forall id :: id in Overdue(original, seen, now) ==>
              exists i :: 0 <= i < |seen| && seen[i] && original[i].deadline <= now && original[i].call == id
  {
    if seen != [] {
      var k := |seen| - 1;
      OverdueIff(original, seen[..k], now);
      forall id | id in Overdue(original, seen, now)
        ensures exists i :: 0 <= i < |seen| && seen[i] && original[i].deadline <= now && original[i].call == id
      {
        if id in Overdue(original, seen[..k], now) {
          var i :| 0 <= i < k && seen[..k][i] && original[i].deadline <= now && original[i].call == id;
          assert seen[i];
        } else {
          assert seen[k];
        }
      }
      forall i | 0 <= i < k && seen[i] && original[i].deadline <= now
        ensures original[i].call in Overdue(original, seen, now)
      {
        assert seen[..k][i];
      }
    }
  }

  /** Whatever is kept was open when inspected, and is not due. */
  lemma {:induction false} KeptWasOpen(original: seq<Entry>, seen: seq<bool>, now: Time, entry: Entry)
    requires |seen| <= |original| && entry in Kept(original, seen, now)
    ensures exists i :: 0 <= i < |seen| && seen[i] && original[i] == entry && entry.deadline > now
  {
    var k := |seen| - 1;
    if entry in Kept(original, seen[..k], now) {
      KeptWasOpen(original, seen[..k], now, entry);
      var i :| 0 <= i < k && seen[..k][i] && original[i] == entry && entry.deadline > now;
      assert seen[i];
    } else {
      assert seen[k];
    }
  }

  lemma {:induction false} OpenIsKept(original: seq<Entry>, seen: seq<bool>, now: Time, i: nat)
    requires |seen| <= |original| && i < |seen| && seen[i] && original[i].deadline > now
    ensures original[i] in Kept(original, seen, now)
    decreases |seen|
  {
    if i < |seen| - 1 {
      OpenIsKept(original, seen[..|seen| - 1], now, i);
    }
  }

  /** Inspecting touches one entry of the list only. */
  lemma InspectKeepsEntries(s: State, x: Entry)
    requires Enabled(s, SweepInspects) && x in s.pending
    ensures x in Inspect(s).pending || x == s.pending[s.sweeper.it]
    ensures forall y :: y in Inspect(s).pending ==> y in s.pending
  {
    var it := s.sweeper.it;
    assert s.pending == s.pending[..it] + [s.pending[it]] + s.pending[it + 1..];
  }

  /** The entry is kept, moves among the expired, or was completed. */
  lemma InspectKeepsOthers(s: State, id: CallId)
    requires Enabled(s, SweepInspects) && Full(s, id)
    requires InList(s.pending, id) || InSweep(s.sweeper, id)
    ensures InList(Inspect(s).pending, id) || InSweep(Inspect(s).sweeper, id)
  {
    if InList(s.pending, id) {
      var i :| 0 <= i < |s.pending| && s.pending[i].call == id;
      var x := s.pending[i];
      InspectKeepsEntries(s, x);
      if x in Inspect(s).pending {
        var j :| 0 <= j < |Inspect(s).pending| && Inspect(s).pending[j] == x;
      }
    }
  }

  lemma ListGrows(s: State, entry: Entry, id: CallId)
    requires InList(s.pending, id)
    ensures InList(s.pending + [entry], id)
  {
    var i :| 0 <= i < |s.pending| && s.pending[i].call == id;
    assert (s.pending + [entry])[i].call == id;
  }

  /** A call that is owed an answer stays owed, or its slot is empty. */
  lemma OwedStep(s: State, e: Event, id: CallId)
    requires Inv(s) && Enabled(s, e) && id in s.calls && Full(Apply(s, e), id) && !Apply(s, e).down
    ensures Owed(Apply(s, e), id)
  {
    if Full(s, id) {
      match e {
        case SweepInspects => OwedAfterInspection(s, id);
        case List(other, deadline) => OwedAfterListing(s, e, id);
        case SweepTakes => assert s.sweeper.expired == [s.sweeper.expired[0]] + Apply(s, e).sweeper.expired;
        case _ => OwedOtherwise(s, e, id);
      }
    }
  }

  lemma OwedAfterInspection(s: State, id: CallId)
    requires Enabled(s, SweepInspects) && Full(s, id) && Owed(s, id)
    ensures id in Inspect(s).calls && Owed(Inspect(s), id)
  {
    if InList(s.pending, id) || InSweep(s.sweeper, id) {
      InspectKeepsOthers(s, id);
    }
  }

  lemma OwedAfterListing(s: State, e: Event, id: CallId)
    requires Enabled(s, e) && e.List? && Full(s, id) && Owed(s, id)
    ensures id in Apply(s, e).calls && Owed(Apply(s, e), id)
  {
    if InList(s.pending, id) {
      ListGrows(s, Entry(e.deadline, e.id), id);
    } else if e.id == id {
      assert Apply(s, e).pending[|s.pending|].call == id;
    }
  }

  lemma OwedOtherwise(s: State, e: Event, id: CallId)
    requires Inv(s) && Enabled(s, e) && !e.SweepInspects? && !e.List? && !e.SweepTakes? && !Apply(s, e).down
    requires Full(s, id) && Owed(s, id) && Full(Apply(s, e), id)
    ensures Owed(Apply(s, e), id)
  {
  }

  lemma MadeStays(s: State, e: Event, entry: Entry)
    requires Enabled(s, e) && Made(s, entry)
    ensures Made(Apply(s, e), entry)
  {
  }

  lemma EntriesMadeStep(s: State, e: Event)
    requires EntriesMade(s) && Enabled(s, e)
    ensures EntriesMade(Apply(s, e))
  {
    forall entry | Made(s, entry) { MadeStays(s, e, entry); }
    if e.SweepInspects? {
      assert forall i :: 0 <= i < |Inspect(s).pending| ==> Inspect(s).pending[i] in s.pending;
    }
  }

  lemma SweepInvStep(s: State, e: Event)
    requires Inv(s) && Enabled(s, e)
    ensures SweepInv(Apply(s, e))
  {
    match e {
      case SweepInspects => SweepInspectStep(s);
      case SweepUnlocks => SweepUnlockStep(s);
      case SweepTakes => assert s.sweeper.expired == [s.sweeper.expired[0]] + s.sweeper.expired[1..];
      case Emplace(_) => SlotFilledStep(s, e);
      case _ => SlotEmptiedStep(s, e);
    }
  }

  lemma SlotFilledStep(s: State, e: Event)
    requires Inv(s) && Enabled(s, e) && e.Emplace?
    ensures SweepInv(Apply(s, e))
  {
    var sw := s.sweeper;
    assert !sw.Away? ==> forall i :: 0 <= i < |sw.original| ==> Made(s, sw.original[i]);
  }

  lemma SlotEmptiedStep(s: State, e: Event)
    requires Inv(s) && Enabled(s, e)
    requires !e.Emplace? && !e.SweepInspects? && !e.SweepUnlocks? && !e.SweepTakes?
    ensures SweepInv(Apply(s, e))
  {
    assert forall id :: Full(Apply(s, e), id) ==> Full(s, id);
  }

  lemma SweepInspectStep(s: State)
    requires SweepInv(s) && Enabled(s, SweepInspects)
    ensures SweepInv(Inspect(s))
  {
    var sw, t := s.sweeper, Inspect(s);
    var full := Full(s, s.pending[sw.it].call);
    InspectsNext(s);
    ScannedStep(s.pending, sw, full);
    assert t.sweeper.seen == sw.seen + [full] && t.sweeper.original == sw.original && t.calls == s.calls;
    forall i | 0 <= i < |t.sweeper.seen| && !t.sweeper.seen[i] ensures !Full(t, sw.original[i].call) {
      assert i < |sw.seen| ==> !sw.seen[i];
    }
  }

  lemma ScannedStep(pending: seq<Entry>, sw: Sweeper, full: bool)
    requires sw.Scanning? && Scanned(pending, sw) && sw.it < |pending|
    ensures var entry, erased := pending[sw.it], pending[..sw.it] + pending[sw.it + 1..];
            if !full then Scanned(erased, sw.(seen := sw.seen + [full]))
            else if entry.deadline <= sw.now then
              Scanned(erased, sw.(seen := sw.seen + [full], expired := sw.expired + [entry.call]))
            else Scanned(pending, sw.(seen := sw.seen + [full], it := sw.it + 1))
  {
    var kept, k := Kept(sw.original, sw.seen, sw.now), |sw.seen|;
    assert pending[sw.it] == sw.original[k];
    assert pending[..sw.it] == kept && pending[sw.it + 1..] == sw.original[k + 1..];
    OneMoreSeen(sw.original, sw.seen, sw.now, full);
    if full && sw.original[k].deadline > sw.now {
      Shift(kept, sw.original, k);
    }
  }

  lemma Shift(kept: seq<Entry>, original: seq<Entry>, k: nat)
    requires k < |original|
    ensures kept + original[k..] == (kept + [original[k]]) + original[k + 1..]
  {
  }

  lemma SweepUnlockStep(s: State)
    requires SweepInv(s) && Enabled(s, SweepUnlocks)
    ensures SweepInv(Apply(s, SweepUnlocks))
  {
    OverdueIff(s.sweeper.original, s.sweeper.seen, s.sweeper.now);
  }

  lemma OrderStep(s: State, e: Event)
    requires Order(s) && Enabled(s, e)
    ensures Order(Apply(s, e))
  {
  }

  lemma ExpiredDueStep(s: State, e: Event)
    requires ExpiredDue(s.sweeper) && SweepInv(s) && Enabled(s, e)
    ensures ExpiredDue(Apply(s, e).sweeper)
  {
    var sw, sw' := s.sweeper, Apply(s, e).sweeper;
    if !sw.Away? && !sw'.Away? {
      forall id | DueCall(sw, id) ensures DueCall(sw', id) {
        var i :| Due(sw, i) && sw.original[i].call == id;
        assert Due(sw', i);
      }
      if e.SweepInspects? {
        InspectsNext(s);
        assert sw'.expired != sw.expired ==> Due(sw', |sw.seen|);
      }
    }
  }

  lemma StepKeeps(s: State, e: Event)
    requires Inv(s) && Enabled(s, e)
    ensures Inv(Apply(s, e))
  {
    var t := Apply(s, e);
    PlacesStep(s, e);
    OrderStep(s, e);
    ExpiredDueStep(s, e);
    SweepInvStep(s, e);
    EntriesMadeStep(s, e);
    forall id | id in t.calls && t.calls[id].slot && !t.down ensures Owed(t, id) {
      if id in s.calls {
        OwedStep(s, e, id);
      }
    }
  }

  lemma {:induction false} RunKeeps(s: State, es: seq<Event>)
    requires Inv(s) && Legal(s, es)
    ensures Inv(Run(s, es))
    decreases |es|
  {
    if es != [] {
      StepKeeps(s, es[0]);
      RunKeeps(Apply(s, es[0]), es[1..]);
    }
  }

  // ---------------------------------------------------------------- the promises

  /**
   In every interleaving the responder of each dispatched request is in exactly one place, so no
   request is answered twice; and while the bridge lives, a full slot always has a handler, a
   running worker, a pending-list entry or an expired entry that will still look at it.
   */
  lemma ExactlyOnePlace(es: seq<Event>, id: CallId)
    requires Legal(START, es) && id in Run(START, es).calls
    ensures var s := Run(START, es);
            && Places(s, id) == 1
            && AnswersTo(s.answers, id) <= 1
            && (s.calls[id].slot && !s.down ==> Owed(s, id))
  {
    RunKeeps(START, es);
  }

  /** Nobody has anything left to do for this request. */
  predicate Settled(s: State, id: CallId)
    requires id in s.calls
  {
    && s.calls[id].handler.Returned?
    && (s.calls[id].worker.NoWorker? || s.calls[id].worker.Finished?)
    && !InList(s.pending, id) && !InSweep(s.sweeper, id)
    && !(s.sweeper.Taking? && s.sweeper.hand == Some(id))
  }

  /**
   Along every path (early exit, worker, timeout) a settled request has been answered once; only
   destroying the bridge can leave a responder in its slot, and dropping that is its one answer.
   */
  lemma AnsweredExactlyOnce(es: seq<Event>, id: CallId)
    requires Legal(START, es) && id in Run(START, es).calls && Settled(Run(START, es), id)
    ensures !Run(START, es).down || !Run(START, es).calls[id].slot ==> AnswersTo(Run(START, es).answers, id) == 1
    ensures Run(START, es).down && Run(START, es).calls[id].slot ==>
              var e := OwnerlessDropped(id);
              Enabled(Run(START, es), e) && AnswersTo(Apply(Run(START, es), e).answers, id) == 1
  {
    RunKeeps(START, es);
    var s := Run(START, es);
    if Enabled(s, OwnerlessDropped(id)) {
      StepKeeps(s, OwnerlessDropped(id));
    }
  }

  /**
   When the iterator reaches the end, with workers racing all along: every entry was inspected once,
   and the list is the entries that were found open and not due, in the old order. The calls of
   those found open and due are to be timed out, in order; the other removed entries were completed:
   the worker holds the responder, or it has been used.
   */
  lemma ScanOutcome(es: seq<Event>)
    requires Legal(START, es) && Enabled(Run(START, es), SweepUnlocks)
    ensures var s := Run(START, es);
            var sw := s.sweeper;
            && |sw.seen| == |sw.original|
            && s.pending == Kept(sw.original, sw.seen, sw.now)
            && sw.expired == Overdue(sw.original, sw.seen, sw.now)
            && (forall x :: x in s.pending ==>
                  exists i :: 0 <= i < |sw.original| && sw.seen[i] && sw.original[i] == x && x.deadline > sw.now)
            && (forall i :: 0 <= i < |sw.original| && sw.seen[i] && sw.original[i].deadline > sw.now ==>
                  sw.original[i] in s.pending)
            && (forall i :: 0 <= i < |sw.original| && sw.seen[i] && sw.original[i].deadline <= sw.now ==>
                  sw.original[i].call in sw.expired)
            && (forall i :: 0 <= i < |sw.original| && !sw.seen[i] ==> Completed(s, sw.original[i].call))
  {
    RunKeeps(START, es);
    var s := Run(START, es);
    var sw := s.sweeper;
    forall x | x in s.pending
      ensures exists i :: 0 <= i < |sw.original| && sw.seen[i] && sw.original[i] == x && x.deadline > sw.now
    {
      KeptWasOpen(sw.original, sw.seen, sw.now, x);
    }
    OverdueIff(sw.original, sw.seen, sw.now);
    forall i | 0 <= i < |sw.original| && sw.seen[i] && sw.original[i].deadline > sw.now ensures sw.original[i] in s.pending {
      OpenIsKept(sw.original, sw.seen, sw.now, i);
    }
    forall i | 0 <= i < |sw.original| && !sw.seen[i] ensures Completed(s, sw.original[i].call) {
      assert Made(s, sw.original[i]) && !Full(s, sw.original[i].call);
      assert Places(s, sw.original[i].call) == 1;
    }
  }

  /** The responder is out of the slot: its worker holds it, or it has been used. */
  predicate Completed(s: State, id: CallId) {
    && id in s.calls && !s.calls[id].slot
    && (s.calls[id].worker.Holding? || AnswersTo(s.answers, id) == 1)
  }

  /** What `seen` records: each inspection adds whether the inspected slot was full at that moment. */
  lemma SeenRecords(es: seq<Event>)
    requires Legal(START, es) && Enabled(Run(START, es), SweepInspects)
    ensures var s := Run(START, es);
            var sw := s.sweeper;
            && |sw.seen| < |sw.original|
            && Apply(s, SweepInspects).sweeper.seen == sw.seen + [Full(s, sw.original[|sw.seen|].call)]
  {
    RunKeeps(START, es);
    InspectsNext(Run(START, es));
  }

  /**
   When the sweep returns, each call that was listed and due when it began is completed: its worker
   holds the responder, or it has been used.
   */
  lemma SweepLeavesNoDue(es: seq<Event>, i: int)
    requires Legal(START, es) && Enabled(Run(START, es), SweepReturns)
    requires var sw := Run(START, es).sweeper; 0 <= i < |sw.original| && sw.original[i].deadline <= sw.now
    ensures var s := Run(START, es);
            Completed(s, s.sweeper.original[i].call)
  {
    RunKeeps(START, es);
    var s := Run(START, es);
    var id := s.sweeper.original[i].call;
    assert Due(s.sweeper, i);
    assert Made(s, s.sweeper.original[i]) && !Full(s, id);
    assert Places(s, id) == 1;
  }

  /** A timeout is sent only for a call that was listed with a deadline that had passed. */
  lemma NoEarlyTimeout(es: seq<Event>)
    requires Legal(START, es) && Enabled(Run(START, es), SweepAnswers)
    ensures var s := Run(START, es);
            && Apply(s, SweepAnswers).answers == s.answers + [(s.sweeper.hand.value, TimedOut)]
            && exists i :: Due(s.sweeper, i) && s.sweeper.original[i].call == s.sweeper.hand.value
  {
    RunKeeps(START, es);
    assert DueCall(Run(START, es).sweeper, Run(START, es).sweeper.hand.value);
  }

  // ---------------------------------------------------------------- which answer is given

  lemma AnswerStep(s: State, e: Event, id: CallId)
    requires Enabled(s, e)
    ensures var before, after := s.answers, Apply(s, e).answers;
            && ((id, Result) in after <==> (id, Result) in before || e == WorkerAnswers(id, true))
            && ((id, CallFailed) in after <==> (id, CallFailed) in before || e == WorkerAnswers(id, false))
            && ((id, Rejected) in after <==> (id, Rejected) in before || e == Reject(id))
            && ((id, Dropped) in after <==> (id, Dropped) in before || e == OwnerlessDropped(id))
  {
  }

  lemma {:induction false} AnswersFrom(s: State, es: seq<Event>, id: CallId)
    requires Legal(s, es)
    ensures var before, after := s.answers, Run(s, es).answers;
            && ((id, Result) in after <==> (id, Result) in before || WorkerAnswers(id, true) in es)
            && ((id, CallFailed) in after <==> (id, CallFailed) in before || WorkerAnswers(id, false) in es)
            && ((id, Rejected) in after <==> (id, Rejected) in before || Reject(id) in es)
            && ((id, Dropped) in after <==> (id, Dropped) in before || OwnerlessDropped(id) in es)
    decreases |es|
  {
    if es != [] {
      assert es == [es[0]] + es[1..];
      AnswerStep(s, es[0], id);
      AnswersFrom(Apply(s, es[0]), es[1..], id);
    }
  }

  /**
   In every run a request gets the call's result exactly if its worker had the responder when the
   call succeeded, the call's error exactly if it had it when the call failed, a rejection exactly
   if the handler turned it down, and an error for a dropped responder exactly if that happened.
   */
  lemma AnswersAreDeserved(es: seq<Event>, id: CallId)
    requires Legal(START, es)
    ensures var answers := Run(START, es).answers;
            && ((id, Result) in answers <==> WorkerAnswers(id, true) in es)
            && ((id, CallFailed) in answers <==> WorkerAnswers(id, false) in es)
            && ((id, Rejected) in answers <==> Reject(id) in es)
            && ((id, Dropped) in answers <==> OwnerlessDropped(id) in es)
  {
    AnswersFrom(START, es, id);
  }

  lemma {:induction false} Prepend(s: State, e: Event, es: seq<Event>)
    requires Enabled(s, e) && Legal(Apply(s, e), es)
    ensures Legal(s, [e] + es) && Run(s, [e] + es) == Run(Apply(s, e), es)
  {
    assert ([e] + es)[1..] == es;
  }

  /** A run in which a call is made, listed and handed to its worker. */
  lemma Dispatched(id: CallId, deadline: Time, es: seq<Event>) returns (all: seq<Event>)
    requires Legal(InProgress(id, deadline), es)
    ensures Legal(START, all) && Run(START, all) == Run(InProgress(id, deadline), es)
  {
    var s1 := Apply(START, Request(id));
    var s2 := Apply(s1, Emplace(id));
    var s3 := Apply(s2, List(id, deadline));
    assert Apply(s3, Spawn(id, true)) == InProgress(id, deadline);
    Prepend(s3, Spawn(id, true), es);     all := [Spawn(id, true)] + es;
    Prepend(s2, List(id, deadline), all); all := [List(id, deadline)] + all;
    Prepend(s1, Emplace(id), all);        all := [Emplace(id)] + all;
    Prepend(START, Request(id), all);     all := [Request(id)] + all;
  }

  function InProgress(id: CallId, deadline: Time): State {
    State(map[id := Call(Returned, true, Calling)], [Entry(deadline, id)], Away, [], false)
  }

  /** Each outcome of a worker that comes first can happen. */
  lemma WorkerCanAnswer(id: CallId, deadline: Time, ok: bool) returns (es: seq<Event>)
    ensures Legal(START, es) && Run(START, es).answers == [(id, if ok then Result else CallFailed)]
  {
    var s := InProgress(id, deadline);
    var s1 := Apply(s, WorkerTakes(id));
    es := [];
    Prepend(s1, WorkerAnswers(id, ok), es); es := [WorkerAnswers(id, ok)] + es;
    Prepend(s, WorkerTakes(id), es);        es := [WorkerTakes(id)] + es;
    es := Dispatched(id, deadline, es);
  }

  /** A sweep that comes first, after the deadline, times the call out; the worker then finds nothing. */
  lemma SweepCanTimeOut(id: CallId, deadline: Time, now: Time) returns (es: seq<Event>)
    requires deadline <= now
    ensures Legal(START, es) && Run(START, es).answers == [(id, TimedOut)]
    ensures id in Run(START, es).calls && Run(START, es).calls[id].worker.Finished?
  {
    var s := InProgress(id, deadline);
    var s1 := Apply(s, SweepStarts(now));
    var s2 := Apply(s1, SweepInspects);
    assert s2.pending == [] && s2.sweeper.expired == [id];
    var s3 := Apply(s2, SweepUnlocks);
    var s4 := Apply(s3, SweepTakes);
    var s5 := Apply(s4, SweepAnswers);
    es := [];
    Prepend(s5, WorkerTakes(id), es);    es := [WorkerTakes(id)] + es;
    Prepend(s4, SweepAnswers, es);       es := [SweepAnswers] + es;
    Prepend(s3, SweepTakes, es);         es := [SweepTakes] + es;
    Prepend(s2, SweepUnlocks, es);       es := [SweepUnlocks] + es;
    Prepend(s1, SweepInspects, es);      es := [SweepInspects] + es;
    Prepend(s, SweepStarts(now), es);    es := [SweepStarts(now)] + es;
    es := Dispatched(id, deadline, es);
  }

  /** The call was listed with a deadline that some sweep has found passed. */
  ghost predicate Overran(past: seq<Event>, id: CallId) {
    exists deadline, time :: List(id, deadline) in past && SweepStarts(time) in past && deadline <= time
  }

  predicate WasListed(past: seq<Event>, entries: seq<Entry>) {
    forall i :: 0 <= i < |entries| ==> List(entries[i].call, entries[i].deadline) in past
  }

  ghost predicate Remembered(s: State, past: seq<Event>) {
    && WasListed(past, s.pending)
    && (!s.sweeper.Away? ==> WasListed(past, s.sweeper.original) && SweepStarts(s.sweeper.now) in past)
    && (forall id :: (id, TimedOut) in s.answers ==> Overran(past, id))
  }

  lemma OverranStays(past: seq<Event>, e: Event, id: CallId)
    requires Overran(past, id)
    ensures Overran(past + [e], id)
  {
    var deadline, time :| List(id, deadline) in past && SweepStarts(time) in past && deadline <= time;
    assert List(id, deadline) in past + [e] && SweepStarts(time) in past + [e];
  }

  lemma HandOverran(s: State, past: seq<Event>)
    requires Inv(s) && Remembered(s, past) && Enabled(s, SweepAnswers)
    ensures Overran(past, s.sweeper.hand.value)
  {
    assert DueCall(s.sweeper, s.sweeper.hand.value);
    var i :| Due(s.sweeper, i) && s.sweeper.original[i].call == s.sweeper.hand.value;
    assert List(s.sweeper.hand.value, s.sweeper.original[i].deadline) in past;
  }

  lemma RememberedStep(s: State, e: Event, past: seq<Event>)
    requires Inv(s) && Remembered(s, past) && Enabled(s, e)
    ensures Remembered(Apply(s, e), past + [e])
  {
    var t := Apply(s, e);
    ListedStep(s, e, past);
    forall id | (id, TimedOut) in t.answers ensures Overran(past + [e], id) {
      if (id, TimedOut) !in s.answers {
        HandOverran(s, past);
      }
      OverranStays(past, e, id);
    }
  }

  lemma ListedStep(s: State, e: Event, past: seq<Event>)
    requires Inv(s) && Remembered(s, past) && Enabled(s, e)
    ensures WasListed(past + [e], Apply(s, e).pending)
    ensures !Apply(s, e).sweeper.Away? ==>
              WasListed(past + [e], Apply(s, e).sweeper.original) && SweepStarts(Apply(s, e).sweeper.now) in past + [e]
  {
    if e.SweepInspects? {
      forall i | 0 <= i < |Apply(s, e).pending|
        ensures List(Apply(s, e).pending[i].call, Apply(s, e).pending[i].deadline) in past + [e]
      {
        InspectKeepsEntries(s, s.pending[s.sweeper.it]);
        assert Apply(s, e).pending[i] in s.pending;
      }
    }
  }

  lemma {:induction false} RememberedRun(s: State, past: seq<Event>, es: seq<Event>)
    requires Inv(s) && Remembered(s, past) && Legal(s, es)
    ensures Remembered(Run(s, es), past + es)
    decreases |es|
  {
    if es == [] {
      assert past + es == past;
    } else {
      StepKeeps(s, es[0]);
      RememberedStep(s, es[0], past);
      RememberedRun(Apply(s, es[0]), past + [es[0]], es[1..]);
      assert past + [es[0]] + es[1..] == past + es;
    }
  }

  /** In every run a timeout is sent only for a call that was listed with a deadline not after some sweep's start. */
  lemma TimeoutsAreDeserved(es: seq<Event>, id: CallId)
    requires Legal(START, es) && (id, TimedOut) in Run(START, es).answers
    ensures exists deadline, time :: List(id, deadline) in es && SweepStarts(time) in es && deadline <= time
  {
    RememberedRun(START, [], es);
    assert [] + es == es;
  }

  /** Steps of the poll thread that this sweep can still take. */
  function StepsLeft(s: State): nat {
    match s.sweeper
    case Away => 0
    case Scanning(_, it, expired, _, _) => (if it <= |s.pending| then 3 * (|s.pending| - it) else 0) + 2 * |expired| + 2
    case Taking(_, expired, hand, _) => 2 * |expired| + One(hand.Some?) + 1
  }

  predicate OthersStep(e: Event) {
    !SweepStep(e) && !e.SweepStarts?
  }

  lemma OthersLeaveSweep(s: State, e: Event)
    requires SweepInv(s) && Enabled(s, e) && OthersStep(e) && !s.sweeper.Away?
    ensures StepsLeft(Apply(s, e)) == StepsLeft(s)
  {
  }

  lemma SweepAdvances(s: State, e: Event)
    requires SweepInv(s) && Enabled(s, e) && SweepStep(e)
    ensures StepsLeft(Apply(s, e)) < StepsLeft(s)
  {
  }

  /** The sweep ends: each of its own steps uses one up, and nobody else's step changes the number. */
  lemma SweepTerminates(s: State, e: Event)
    requires Inv(s) && Enabled(s, e) && !s.sweeper.Away?
    ensures if SweepStep(e) then StepsLeft(Apply(s, e)) < StepsLeft(s) else StepsLeft(Apply(s, e)) == StepsLeft(s)
    ensures exists own :: SweepStep(own) && Enabled(s, own)
  {
    if SweepStep(e) {
      SweepAdvances(s, e);
    } else {
      OthersLeaveSweep(s, e);
    }
    var own := if s.sweeper.Scanning? then (if s.sweeper.it < |s.pending| then SweepInspects else SweepUnlocks)
               else if s.sweeper.hand.Some? then SweepAnswers
               else if s.sweeper.expired != [] then SweepTakes else SweepReturns;
    assert SweepStep(own) && Enabled(s, own);
  }
}
