/** TransportManager: the parameter queue, the worker's handlers and the subscriber counts. */
module TransportManager {
  import opened Wrappers
  import opened Sequences
  import opened ParameterConversion
  import opened ParameterTree
  import opened ParameterInterface
  import opened ParameterRequests
  import opened ParameterQueue
  import opened ParameterRefcount

  lemma OneMoreName(done: seq<Change>, names: seq<string>, i: nat, up: bool, from: Transport)
    requires i < |names|
    ensures done + ChangesFor(names[..i + 1], up, from) == done + ChangesFor(names[..i], up, from) + [Change(names[i], up, from)]
  {
    assert ChangesFor(names[..i + 1], up, from) == ChangesFor(names[..i], up, from) + [Change(names[i], up, from)];
  }

  /** What one more change does to the counts and to the forwarded calls. */
  lemma OneMoreChange(seen: seq<Change>, fs: seq<Change>, toForward: seq<string>, c: Change)
    requires Forwarded(seen) == fs + ChangesFor(toForward, c.up, c.from)
    ensures Tally(seen + [c]) == Counted(Tally(seen), c)
    ensures Forwarded(seen + [c])
         == fs + ChangesFor(if Forwards(Tally(seen), c) then toForward + [c.name] else toForward, c.up, c.from)
  {
    ForwardedMore(seen, c);
    if Forwards(Tally(seen), c) {
      var all := Forwarded(seen + [c]);
      assert all == all[..|all| - 1] + [c];
      OneMoreForwarded(toForward, c);
      Associative(fs, ChangesFor(toForward, c.up, c.from), [c]);
    }
  }

  lemma OneMoreForwarded(toForward: seq<string>, c: Change)
    ensures ChangesFor(toForward + [c.name], c.up, c.from) == ChangesFor(toForward, c.up, c.from) + [c]
  {
  }

  /** Counts after an operation's names, and the names to pass on to the backend. */
  datatype Tallied = Tallied(count: Counts, toForward: seq<string>)

  function CountNames(count: Counts, names: seq<string>, up: bool, from: Transport): Tallied {
    if names == [] then Tallied(count, [])
    else
      var k := |names| - 1;
      var r := CountNames(count, names[..k], up, from);
      var c := Change(names[k], up, from);
      Tallied(Counted(r.count, c), if Forwards(r.count, c) then r.toForward + [c.name] else r.toForward)
  }

  /** Counting an operation's names continues the tally and the forwarded calls. */
  lemma {:induction false} CountNamesTallies(done: seq<Change>, names: seq<string>, up: bool, from: Transport)
    ensures var r := CountNames(Tally(done), names, up, from);
            var seen := done + ChangesFor(names, up, from);
            r.count == Tally(seen) && Forwarded(seen) == Forwarded(done) + ChangesFor(r.toForward, up, from)
  {
    if names == [] {
      assert done + ChangesFor([], up, from) == done;
      assert Forwarded(done) + ChangesFor([], up, from) == Forwarded(done);
    } else {
      var k := |names| - 1;
      CountNamesTallies(done, names[..k], up, from);
      OneMoreName(done, names, k, up, from);
      assert names[..k + 1] == names;
      OneMoreChange(done + ChangesFor(names[..k], up, from), Forwarded(done),
                    CountNames(Tally(done), names[..k], up, from).toForward, Change(names[k], up, from));
    }
  }

  lemma {:induction false} NetOfNames(names: seq<string>, up: bool, from: Transport, name: string)
    ensures var m: int := multiset(names)[name];
            Net(ChangesFor(names, up, from), name) == if up then m else -m
  {
    if names != [] {
      var k := |names| - 1;
      NetOfNames(names[..k], up, from, name);
      OneMoreForwarded(names[..k], Change(names[k], up, from));
      assert names[..k] + [names[k]] == names;
      NetMore(ChangesFor(names[..k], up, from), Change(names[k], up, from), name);
    }
  }

  /**
   Passed on are exactly the names that have become counted, or that no longer are, each once, and
   only names of the operation.
   */
  ghost predicate Turned(count: Counts, names: seq<string>, r: Tallied, up: bool) {
    && (forall n :: n in r.toForward <==> if up then n in r.count && n !in count else n in count && n !in r.count)
    && (forall n :: n !in r.toForward ==> (n in count <==> n in r.count))
    && NoRepeats(r.toForward)
    && (forall n :: n in r.toForward ==> n in names)
  }

  lemma SingleNames(names: seq<string>)
    requires forall n :: multiset(names)[n] <= 1
    ensures NoRepeats(names)
  {
    forall i, j | 0 <= i < j < |names| ensures names[i] != names[j] {
      var front, back := names[..j], names[j..];
      assert names == front + back;
      assert multiset(names)[names[i]] == multiset(front)[names[i]] + multiset(back)[names[i]];
      assert front[i] in front && back[0] in back;
      assert multiset(front)[names[i]] >= 1 && multiset(back)[names[j]] >= 1;
      assert multiset(names)[names[i]] <= 1;
    }
  }

  lemma {:induction false} ForwardsItsNames(count: Counts, names: seq<string>, up: bool, from: Transport)
    ensures forall n :: n in CountNames(count, names, up, from).toForward ==> n in names
  {
    if names != [] {
      ForwardsItsNames(count, names[..|names| - 1], up, from);
    }
  }

  lemma TurnedByNames(done: seq<Change>, names: seq<string>, up: bool, from: Transport)
    ensures Turned(Tally(done), names, CountNames(Tally(done), names, up, from), up)
  {
    var before, r, seen := Tally(done), CountNames(Tally(done), names, up, from), done + ChangesFor(names, up, from);
    CountNamesTallies(done, names, up, from);
    forall n
      ensures multiset(r.toForward)[n] <= 1
      ensures n in r.toForward <==> if up then n in r.count && n !in before else n in before && n !in r.count
      ensures n !in r.toForward ==> (n in before <==> n in r.count)
    {
      ForwardedNet(done, n);
      ForwardedNet(seen, n);
      NetAppend(Forwarded(done), ChangesFor(r.toForward, up, from), n);
      NetOfNames(r.toForward, up, from, n);
      assert n in r.toForward <==> multiset(r.toForward)[n] > 0;
    }
    SingleNames(r.toForward);
    ForwardsItsNames(before, names, up, from);
  }

  /** Passing these names on makes a set that agrees with the counts agree with the new counts. */
  lemma StillAgrees(count: Counts, names: seq<string>, r: Tallied, up: bool, subscribed: set<string>, allowed: string -> bool)
    requires Turned(count, names, r, up) && subscribed == set n | n in count && allowed(n)
    ensures var forwarded := set n | n in r.toForward && (up ==> allowed(n));
            (if up then subscribed + forwarded else subscribed - forwarded) == set n | n in r.count && allowed(n)
  {
  }

  /** What the outside decides during one operation. */
  datatype Outside = Outside(setFails: nat -> bool, getFails: nat -> bool, namesAvailable: bool, master: Master)

  predicate Reliable(os: seq<Outside>) {
    forall i :: 0 <= i < |os| ==> os[i].master.failing == {}
  }

  /** The worker has taken the next operation, and finished it. */
  function AfterTurn(s: State): State
    requires s.worker.Waiting? && s.queue != []
  {
    s.(queue := s.queue[1..], executed := s.executed + [s.queue[0]], settled := s.settled + Requests(s.queue[0]))
  }

  /** Before stop() the worker has not exited, and stop() is not over. */
  lemma NotOver(s: State)
    requires Reachable(s) && !s.shutdown
    ensures !s.worker.Exited? && !s.joined
  {
    ReachableInv(s);
  }

  lemma TurnIsRun(s: State)
    requires s.worker.Waiting? && s.queue != []
    ensures Apply(Apply(s, Take), Finish) == AfterTurn(s)
  {
  }

  /** The worker has no operation in hand, and stop() has set the flag. */
  predicate CanJoin(s: State) {
    s.shutdown && (s.worker.Waiting? || s.worker.Asleep?) && s.notifiesOwed > 0 && !s.joined
  }

  function AfterJoin(s: State): State
    requires CanJoin(s)
  {
    s.(notifiesOwed := s.notifiesOwed - 1, worker := Exited, joined := true, settled := s.settled + AllRequests(s.drained))
  }

  lemma LastMoves(s: State)
    requires Reachable(s) && s.shutdown && s.worker.Waiting? && s.queue == [] && !s.joined
    ensures Reachable(s.(worker := Exited, joined := true, settled := s.settled + AllRequests(s.drained)))
  {
    ReachStep(s, WorkerExits);
    ReachStep(Apply(s, WorkerExits), StopJoins);
  }

  lemma DrainKeeps(s: State, counted: seq<Change>)
    requires Reachable(s) && !s.shutdown && counted == AllChanges(s.executed)
    ensures var t := Apply(s, StopDrains); Reachable(t) && counted == AllChanges(t.executed)
  {
    ReachStep(s, StopDrains);
  }

  lemma FinishKeeps(s: State, counted: seq<Change>)
    requires Reachable(s) && s.worker.Busy? && counted == AllChanges(s.executed)
    ensures var t := Apply(s, Finish); Reachable(t) && AllChanges(t.executed) == counted + Changes(s.worker.op)
  {
    ReachStep(s, Finish);
    ChangesMore(s.executed, s.worker.op);
  }

  /** The first i operations of the queue have been executed, in order. */
  predicate WorkedOff(start: State, now: State, i: int) {
    && 0 <= i <= |start.queue|
    && now.worker.Waiting? && now.queue == start.queue[i..] && now.executed == start.executed + start.queue[..i]
  }

  lemma WorkedOffStep(start: State, now: State, i: int)
    requires WorkedOff(start, now, i) && now.queue != []
    ensures WorkedOff(start, AfterTurn(now), i + 1)
  {
    assert start.queue[..i + 1] == start.queue[..i] + [start.queue[i]];
  }

  /** The worker is woken and exits, and stop() ends; by then every responder is settled. */
  lemma JoinReached(s: State)
    requires Reachable(s) && CanJoin(s)
    ensures s.queue == [] && Reachable(Apply(s, Notify)) && Reachable(AfterJoin(s))
    ensures forall request :: AfterJoin(s).submitted[request] == AfterJoin(s).settled[request]
  {
    ShutdownEmpties(s);
    ReachStep(s, Notify);
    LastMoves(Apply(s, Notify));
    forall request ensures AfterJoin(s).submitted[request] == AfterJoin(s).settled[request] {
      AllSettled(AfterJoin(s), request);
    }
  }

  class TransportManager {
    var paramOpQueue: seq<ParameterOp>
    var paramOpShutdown: bool
    var stopped: bool
    var paramSubscriberCount: Counts
    const backend: Ros1ParameterInterface
    ghost var rest: State
    /** The subscription changes counted so far. */
    ghost var counted: seq<Change>

    ghost function View(): State
      reads this
    {
      rest.(queue := paramOpQueue, shutdown := paramOpShutdown)
    }

    ghost predicate Counting()
      reads this
    {
      paramSubscriberCount == Tally(counted)
    }

    /** Between operations: some run leads here, and the counts are those of the executed operations. */
    ghost predicate Consistent()
      reads this
    {
      && Reachable(View())
      && Counting() && counted == AllChanges(View().executed)
      && (paramOpShutdown ==> stopped)
    }

    /** The backend has exactly the counted names that it may subscribe to. */
    ghost predicate Agrees()
      reads this, backend
    {
      backend.subscribedParams == set n | n in paramSubscriberCount && backend.Permitted()(n)
    }

    /** Each of the names resolves. */
    ghost predicate AllValid(names: seq<string>)
    {
      forall n :: n in names ==> backend.resolveGlobally(n).Some?
    }

    ghost predicate ValidNames(op: ParameterOp)
    {
      op.SubscribeParams? || op.UnsubscribeParams? ==> AllValid(op.names)
    }

    ghost predicate AllNamesValid()
      reads this
    {
      forall i :: 0 <= i < |paramOpQueue| ==> ValidNames(paramOpQueue[i])
    }

    constructor (paramBackend: Ros1ParameterInterface)
      ensures View() == START && backend == paramBackend && counted == [] && Consistent() && !stopped
    {
      paramOpQueue, paramOpShutdown, stopped, paramSubscriberCount := [], false, false, map[];
      backend := paramBackend;
      rest, counted := START, [];
      new;
      assert ReachedBy(START, []);
    }

    /** Under the mutex, then the notification; the operation is dropped after shutdown. */
    method EnqueueParameterOp(op: ParameterOp) returns (queued: bool)
      modifies this`paramOpQueue, this`rest
      ensures queued == !paramOpShutdown
      ensures View() == if queued then Apply(Apply(old(View()), Enqueue(op)), Notify) else Apply(old(View()), Enqueue(op))
      ensures old(Consistent()) ==> Consistent()
    {
      ghost var before := View();
      rest := Apply(View(), Enqueue(op));
      if Reachable(before) {
        ReachStep(before, Enqueue(op));
      }
      if paramOpShutdown {
        return false;
      }
      paramOpQueue := paramOpQueue + [op];
      if Reachable(before) {
        ReachStep(View(), Notify);
      }
      rest := Apply(View(), Notify);
      queued := true;
    }

    /** One turn of the worker's loop up to the unlock: the next operation, or the end. */
    method NextParameterOp() returns (op: Option<ParameterOp>)
      requires rest.worker.Waiting? && (paramOpShutdown || paramOpQueue != [])
      modifies this`paramOpQueue, this`rest
      ensures op.Some? <==> old(paramOpQueue) != []
      ensures op.Some? ==> View() == Apply(old(View()), Take) && View().worker == Busy(op.value)
      ensures op.None? ==> Enabled(old(View()), WorkerExits) && View() == Apply(old(View()), WorkerExits)
      ensures old(Consistent()) ==> Consistent()
    {
      ghost var before := View();
      if paramOpShutdown && paramOpQueue == [] {
        rest := Apply(View(), WorkerExits);
        if Reachable(before) {
          ReachStep(before, WorkerExits);
        }
        return None;
      }
      rest := Apply(View(), Take);
      op := Some(paramOpQueue[0]);
      paramOpQueue := paramOpQueue[1..];
      if Reachable(before) {
        ReachStep(before, Take);
      }
    }

    /** One full turn: takes the next operation, handles it, and is ready for the next; or exits. */
    method WorkerTurn(o: Outside) returns (op: Option<ParameterOp>, response: Option<seq<Parameter>>)
      requires Consistent() && backend.Valid() && rest.worker.Waiting? && (paramOpShutdown || paramOpQueue != [])
      modifies this`paramOpQueue, this`rest, this`paramSubscriberCount, this`counted
      modifies backend`store, backend`enumerations, backend`subscribedParams, backend`registered
      ensures Consistent() && backend.Valid()
      ensures op == if old(paramOpQueue) == [] then None else Some(old(paramOpQueue)[0])
      ensures op.Some? ==> View() == AfterTurn(old(View()))
      ensures op.None? ==> View() == Apply(old(View()), WorkerExits)
      ensures op.Some? && op.value.SetParams? ==>
                && backend.store == SetAll(old(backend.store), op.value.parameters, o.setFails, backend.TargetOf())
                && response == Some(ReadAll(backend.store, NamesOf(op.value.parameters), o.getFails, backend.TargetOf()))
      ensures op.Some? && op.value.GetParams? && op.value.names != [] ==>
                response == Some(ReadAll(backend.store, op.value.names, o.getFails, backend.TargetOf()))
      ensures old(Agrees()) && o.master.failing == {} && !backend.isShutdown && (op.Some? ==> ValidNames(op.value)) ==> Agrees()
    {
      ghost var before := View();
      op := NextParameterOp();
      response := None;
      if op.Some? {
        response := FinishOp(op.value, o);
        TurnIsRun(before);
      }
    }

    /** Turns of the loop until the queue is empty. */
    method WorkOff(os: seq<Outside>)
      requires Consistent() && backend.Valid() && rest.worker.Waiting? && |os| == |paramOpQueue|
      modifies this`paramOpQueue, this`rest, this`paramSubscriberCount, this`counted
      modifies backend`store, backend`enumerations, backend`subscribedParams, backend`registered
      ensures Consistent() && backend.Valid() && rest.worker.Waiting? && paramOpQueue == []
      ensures View().executed == old(View().executed) + old(paramOpQueue)
      ensures old(Agrees()) && !backend.isShutdown && Reliable(os) && old(AllNamesValid()) ==> Agrees()
    {
      ghost var start := View();
      ghost var agreeing := Agrees() && !backend.isShutdown && Reliable(os) && AllNamesValid();
      for i := 0 to |os|
        invariant WorkedOff(start, View(), i) && Consistent() && backend.Valid()
        invariant agreeing ==> Agrees()
      {
        NextTurn(os[i], start, i);
      }
    }

    /** A turn of the loop that does not exit. */
    method NextTurn(o: Outside, ghost start: State, ghost i: int)
      requires WorkedOff(start, View(), i) && i < |start.queue| && Consistent() && backend.Valid()
      modifies this`paramOpQueue, this`rest, this`paramSubscriberCount, this`counted
      modifies backend`store, backend`enumerations, backend`subscribedParams, backend`registered
      ensures WorkedOff(start, View(), i + 1) && Consistent() && backend.Valid()
      ensures old(Agrees()) && o.master.failing == {} && !backend.isShutdown && ValidNames(start.queue[i]) ==> Agrees()
    {
      WorkedOffStep(start, View(), i);
      var op, response := WorkerTurn(o);
    }

    /**
     parameterWorkerLoop while nobody adds anything: it executes what is queued, in order, and then
     exits if shutdown is set, else falls asleep. (ParameterQueue has all interleavings.)
     */
    method ParameterWorkerLoop(os: seq<Outside>)
      requires Consistent() && backend.Valid() && rest.worker.Waiting? && |os| == |paramOpQueue|
      modifies this`paramOpQueue, this`rest, this`paramSubscriberCount, this`counted
      modifies backend`store, backend`enumerations, backend`subscribedParams, backend`registered
      ensures Consistent() && backend.Valid() && paramOpQueue == []
      ensures View().executed == old(View().executed) + old(paramOpQueue)
      ensures View().worker == if paramOpShutdown then Exited else Asleep
      ensures old(Agrees()) && !backend.isShutdown && Reliable(os) && old(AllNamesValid()) ==> Agrees()
    {
      WorkOff(os);
      if paramOpShutdown {
        var op := NextParameterOp();
      } else {
        ReachStep(View(), Sleep);
        rest := Apply(View(), Sleep);
      }
    }

    /** The part of stop() that runs under the queue's mutex. */
    method DrainForStop() returns (drained: seq<ParameterOp>)
      requires Consistent() && stopped && !paramOpShutdown
      modifies this`paramOpQueue, this`paramOpShutdown, this`rest
      ensures View() == Apply(old(View()), StopDrains) && drained == View().drained
      ensures Consistent()
    {
      ghost var before := View();
      DrainKeeps(before, counted);
      drained := paramOpQueue;
      rest := Apply(before, StopDrains);
      paramOpShutdown := true;
      paramOpQueue := [];
      assert View() == Apply(before, StopDrains);
    }

    /**
     stop(): what is queued is dropped, the worker finishes what it has in hand, is woken if it
     sleeps, and exits; then every responder is settled. A second call does nothing.
     */
    method Stop(inHand: Option<ParameterOp>, o: Outside) returns (response: Option<seq<Parameter>>)
      requires Consistent() && backend.Valid()
      requires !stopped ==> InHand(rest.worker) == (if inHand.Some? then [inHand.value] else [])
      modifies this`stopped, this`paramOpQueue, this`paramOpShutdown, this`rest, this`paramSubscriberCount, this`counted
      modifies backend`store, backend`enumerations, backend`subscribedParams, backend`registered
      ensures stopped && Consistent() && backend.Valid()
      ensures old(stopped) ==> View() == old(View())
      ensures !old(stopped) ==>
                && paramOpShutdown && paramOpQueue == [] && View().drained == old(paramOpQueue)
                && View().worker.Exited? && View().joined
                && View().executed == old(View().executed) + (if inHand.Some? then [inHand.value] else [])
                && forall request :: View().submitted[request] == View().settled[request]
    {
      response := None;
      if stopped {
        return;
      }
      NotOver(View());
      stopped := true;
      var drained := DrainForStop();
      response := FinishAndJoin(inHand, o);
    }

    /** stop() after the drain. */
    method FinishAndJoin(inHand: Option<ParameterOp>, o: Outside) returns (response: Option<seq<Parameter>>)
      requires Consistent() && backend.Valid() && paramOpShutdown
      requires rest.notifiesOwed > 0 && !rest.joined && !rest.worker.Exited?
      requires InHand(rest.worker) == (if inHand.Some? then [inHand.value] else [])
      modifies this`paramOpQueue, this`rest, this`paramSubscriberCount, this`counted
      modifies backend`store, backend`enumerations, backend`subscribedParams, backend`registered
      ensures Consistent() && backend.Valid() && paramOpQueue == []
      ensures rest.worker.Exited? && rest.joined && rest.drained == old(rest.drained)
      ensures rest.executed == old(rest.executed) + (if inHand.Some? then [inHand.value] else [])
      ensures forall request :: rest.submitted[request] == rest.settled[request]
    {
      response := None;
      if inHand.Some? {
        response := FinishOp(inHand.value, o);
      }
      JoinWorker();
    }

    /** The rest of a turn in which the worker has an operation in hand. */
    method FinishOp(op: ParameterOp, o: Outside) returns (response: Option<seq<Parameter>>)
      requires Consistent() && backend.Valid() && rest.worker == Busy(op)
      modifies this`rest, this`paramSubscriberCount, this`counted
      modifies backend`store, backend`enumerations, backend`subscribedParams, backend`registered
      ensures Consistent() && backend.Valid() && View() == Apply(old(View()), Finish)
      ensures op.SetParams? ==>
                && backend.store == SetAll(old(backend.store), op.parameters, o.setFails, backend.TargetOf())
                && response == Some(ReadAll(backend.store, NamesOf(op.parameters), o.getFails, backend.TargetOf()))
      ensures op.GetParams? && op.names != [] ==>
                response == Some(ReadAll(backend.store, op.names, o.getFails, backend.TargetOf()))
      ensures old(Agrees()) && o.master.failing == {} && !backend.isShutdown && ValidNames(op) ==> Agrees()
    {
      ghost var before := View();
      FinishKeeps(before, counted);
      response := HandleParameterOp(op, o);
      rest := Apply(before, Finish);
    }

    /** The rest of stop(): the notification and the join, with the worker's last moves in between. */
    method JoinWorker()
      requires Consistent() && paramOpShutdown && CanJoin(View())
      modifies this`rest
      ensures Consistent() && View() == AfterJoin(old(View())) && paramOpQueue == []
      ensures forall request :: View().submitted[request] == View().settled[request]
    {
      ghost var before := View();
      JoinReached(before);
      rest := AfterJoin(before);
    }

    /** What the worker does with one operation. */
    method HandleParameterOp(op: ParameterOp, o: Outside) returns (response: Option<seq<Parameter>>)
      requires Counting() && backend.Valid()
      modifies this`paramSubscriberCount, this`counted
      modifies backend`store, backend`enumerations, backend`subscribedParams, backend`registered
      ensures Counting() && counted == old(counted) + Changes(op) && backend.Valid()
      ensures backend.store == if op.SetParams? then SetAll(old(backend.store), op.parameters, o.setFails, backend.TargetOf())
                               else old(backend.store)
      ensures op.SetParams? ==>
                response == Some(ReadAll(backend.store, NamesOf(op.parameters), o.getFails, backend.TargetOf()))
      ensures op.GetParams? && op.names != [] ==>
                response == Some(ReadAll(backend.store, op.names, o.getFails, backend.TargetOf()))
      ensures op.GetParams? && op.names == [] ==> (response.Some? <==> o.namesAvailable)
      ensures op.GetParams? || op.SetParams? ==> backend.subscribedParams == old(backend.subscribedParams)
      ensures old(Agrees()) && o.master.failing == {} && !backend.isShutdown && ValidNames(op) ==> Agrees()
    {
      response := None;
      match op {
        case GetParams(names, _) => response := HandleGetParams(names, o.getFails, o.namesAvailable);
        case SetParams(parameters, _) => response := HandleSetParams(parameters, o.setFails, o.getFails);
        case SubscribeParams(names, from) => var forwarded := HandleSubscribeParams(names, from, o.master);
        case UnsubscribeParams(names, from) => var forwarded := HandleUnsubscribeParams(names, from, o.master);
      }
    }

    /** The response, or None if the responder is dropped. */
    method HandleGetParams(names: seq<string>, fails: nat -> bool, namesAvailable: bool) returns (response: Option<seq<Parameter>>)
      modifies backend`enumerations
      ensures names != [] ==>
                && response == Some(ReadAll(backend.store, names, fails, backend.TargetOf()))
                && backend.enumerations == old(backend.enumerations)
      ensures names == [] ==>
                && (response.Some? <==> namesAvailable)
                && (response.Some? ==> exists leaves ::
                      (forall p :: p in leaves <==> Leaf(backend.store, p)) && NoRepeats(leaves)
                      && response.value == ReadAll(backend.store, Joined(leaves), fails, backend.TargetOf()))
    {
      ghost var leaves;
      response, leaves := backend.GetParams(names, fails, namesAvailable);
    }

    /**
     Applies the list, then answers with the values the server now has for the listed names. An
     empty list is answered at once: it must not turn into a request for all parameters.
     */
    method HandleSetParams(parameters: seq<Parameter>, setFails: nat -> bool, getFails: nat -> bool)
      returns (response: Option<seq<Parameter>>)
      modifies backend`store, backend`enumerations
      ensures backend.store == SetAll(old(backend.store), parameters, setFails, backend.TargetOf())
      ensures response == Some(ReadAll(backend.store, NamesOf(parameters), getFails, backend.TargetOf()))
      ensures backend.enumerations == old(backend.enumerations)
      ensures forall i: nat, path ::
                i < |parameters| && !getFails(i) && parameters[i].value.Some?
                && MeantAsDouble(parameters[i].value.value, parameters[i].hint)
                && TakesEffect(parameters, i, setFails, backend.TargetOf(), path)
                && NoneTouches(parameters, i + 1, setFails, backend.TargetOf(), path) ==>
                  Parameter(parameters[i].name, Float64, Some(Double(parameters[i].value.value.n as real))) in response.value
    {
      if parameters == [] {
        return Some([]);
      }
      backend.SetParams(parameters, setFails);
      var names: seq<string> := [];
      for i := 0 to |parameters|
        invariant names == NamesOf(parameters[..i])
      {
        names := names + [parameters[i].name];
      }
      assert parameters[..|parameters|] == parameters;
      ghost var leaves;
      response, leaves := backend.GetParams(names, getFails, true);
      forall i: nat, path |
        i < |parameters| && !getFails(i) && parameters[i].value.Some?
        && MeantAsDouble(parameters[i].value.value, parameters[i].hint)
        && TakesEffect(parameters, i, setFails, backend.TargetOf(), path)
        && NoneTouches(parameters, i + 1, setFails, backend.TargetOf(), path)
        ensures Parameter(parameters[i].name, Float64, Some(Double(parameters[i].value.value.n as real))) in response.value
      {
        SetIsEchoed(old(backend.store), parameters, i, setFails, getFails, backend.TargetOf(), path);
      }
    }

    /** Counts one subscriber more for each name, and lists the names that had none before. */
    method Increment(names: seq<string>, ghost from: Transport) returns (toForward: seq<string>)
      modifies this`paramSubscriberCount
      ensures Tallied(paramSubscriberCount, toForward) == CountNames(old(paramSubscriberCount), names, true, from)
    {
      toForward := [];
      for i := 0 to |names|
        invariant Tallied(paramSubscriberCount, toForward) == CountNames(old(paramSubscriberCount), names[..i], true, from)
      {
        assert names[..i + 1][..i] == names[..i];
        var name := names[i];
        var count := (if name in paramSubscriberCount then paramSubscriberCount[name] else 0) + 1;
        paramSubscriberCount := paramSubscriberCount[name := count];
        if count == 1 {
          toForward := toForward + [name];
        }
      }
      assert names[..|names|] == names;
    }

    method CountSubscribers(names: seq<string>, from: Transport) returns (toForward: seq<string>)
      requires Counting()
      modifies this`paramSubscriberCount, this`counted
      ensures Counting() && counted == old(counted) + ChangesFor(names, true, from)
      ensures Forwarded(counted) == Forwarded(old(counted)) + ChangesFor(toForward, true, from)
      ensures Turned(old(paramSubscriberCount), names, Tallied(paramSubscriberCount, toForward), true)
    {
      CountNamesTallies(counted, names, true, from);
      TurnedByNames(counted, names, true, from);
      toForward := Increment(names, from);
      counted := counted + ChangesFor(names, true, from);
    }

    /** Counts one subscriber less for each tracked name, and lists the names whose last one left. */
    method Decrement(names: seq<string>, ghost from: Transport) returns (toForward: seq<string>)
      modifies this`paramSubscriberCount
      ensures Tallied(paramSubscriberCount, toForward) == CountNames(old(paramSubscriberCount), names, false, from)
    {
      toForward := [];
      for i := 0 to |names|
        invariant Tallied(paramSubscriberCount, toForward) == CountNames(old(paramSubscriberCount), names[..i], false, from)
      {
        assert names[..i + 1][..i] == names[..i];
        var name := names[i];
        if name !in paramSubscriberCount {
          continue;
        }
        var count := paramSubscriberCount[name] - 1;
        if count == 0 {
          toForward := toForward + [name];
          paramSubscriberCount := paramSubscriberCount - {name};
        } else {
          paramSubscriberCount := paramSubscriberCount[name := count];
        }
      }
      assert names[..|names|] == names;
    }

    method DiscountSubscribers(names: seq<string>, from: Transport) returns (toForward: seq<string>)
      requires Counting()
      modifies this`paramSubscriberCount, this`counted
      ensures Counting() && counted == old(counted) + ChangesFor(names, false, from)
      ensures Forwarded(counted) == Forwarded(old(counted)) + ChangesFor(toForward, false, from)
      ensures Turned(old(paramSubscriberCount), names, Tallied(paramSubscriberCount, toForward), false)
    {
      CountNamesTallies(counted, names, false, from);
      TurnedByNames(counted, names, false, from);
      toForward := Decrement(names, from);
      counted := counted + ChangesFor(names, false, from);
    }

    /** Whatever the backend throws is caught and logged. */
    method HandleSubscribeParams(names: seq<string>, from: Transport, master: Master) returns (forwarded: seq<string>)
      requires Counting() && backend.Valid()
      modifies this`paramSubscriberCount, this`counted, backend`subscribedParams, backend`registered
      ensures Counting() && counted == old(counted) + Changes(ParameterOp.SubscribeParams(names, from))
      ensures Forwarded(counted) == Forwarded(old(counted)) + ChangesFor(forwarded, true, from)
      ensures var added := if backend.isShutdown then {} else backend.Added(forwarded, master);
              && backend.subscribedParams == old(backend.subscribedParams) + added
              && backend.registered == old(backend.registered) + backend.Paths(added)
      ensures backend.Valid() && (old(backend.Mirrored()) ==> backend.Mirrored())
      ensures NoRepeats(forwarded)
      ensures old(Agrees()) ==> forall n :: n in forwarded ==> n !in old(backend.subscribedParams)
      ensures old(Agrees()) && master.failing == {} && !backend.isShutdown && AllValid(names) ==> Agrees()
    {
      forwarded := CountSubscribers(names, from);
      PassOnSubscriptions(forwarded, master);
      if old(Agrees()) {
        StillAgrees(old(paramSubscriberCount), names, Tallied(paramSubscriberCount, forwarded), true,
                    old(backend.subscribedParams), backend.Permitted());
      }
    }

    method PassOnSubscriptions(forwarded: seq<string>, master: Master)
      requires backend.Valid()
      modifies backend`subscribedParams, backend`registered
      ensures var added := if backend.isShutdown then {} else backend.Added(forwarded, master);
              && backend.subscribedParams == old(backend.subscribedParams) + added
              && backend.registered == old(backend.registered) + backend.Paths(added)
      ensures backend.Valid() && (old(backend.Mirrored()) ==> backend.Mirrored())
      ensures master.failing == {} && !backend.isShutdown && AllValid(forwarded) ==>
                backend.subscribedParams == old(backend.subscribedParams) + set n | n in forwarded && backend.Permitted()(n)
    {
      assert backend.Added([], master) == {} && backend.Paths({}) == {};
      if forwarded != [] {
        var thrown := backend.SubscribeParams(forwarded, master);
      }
      if master.failing == {} && AllValid(forwarded) {
        backend.AddedAll(forwarded, master);
      }
    }

    method HandleUnsubscribeParams(names: seq<string>, from: Transport, master: Master) returns (forwarded: seq<string>)
      requires Counting() && backend.Valid()
      modifies this`paramSubscriberCount, this`counted, backend`subscribedParams, backend`registered
      ensures Counting() && counted == old(counted) + Changes(ParameterOp.UnsubscribeParams(names, from))
      ensures Forwarded(counted) == Forwarded(old(counted)) + ChangesFor(forwarded, false, from)
      ensures var dropped := backend.Dropped(forwarded, master);
              && backend.subscribedParams == old(backend.subscribedParams) - dropped
              && backend.registered == old(backend.registered) - backend.Paths(dropped)
      ensures backend.Valid() && NoRepeats(forwarded)
      ensures old(Agrees()) && master.failing == {} && AllValid(names) ==> Agrees()
    {
      forwarded := DiscountSubscribers(names, from);
      PassOnUnsubscriptions(forwarded, master);
      if old(Agrees()) {
        StillAgrees(old(paramSubscriberCount), names, Tallied(paramSubscriberCount, forwarded), false,
                    old(backend.subscribedParams), backend.Permitted());
      }
    }

    method PassOnUnsubscriptions(forwarded: seq<string>, master: Master)
      requires backend.Valid()
      modifies backend`subscribedParams, backend`registered
      ensures var dropped := backend.Dropped(forwarded, master);
              && backend.subscribedParams == old(backend.subscribedParams) - dropped
              && backend.registered == old(backend.registered) - backend.Paths(dropped)
      ensures backend.Valid()
      ensures master.failing == {} && AllValid(forwarded) ==>
                backend.subscribedParams == old(backend.subscribedParams) - set n | n in forwarded
    {
      assert backend.Dropped([], master) == {} && backend.Paths({}) == {};
      if forwarded != [] {
        var thrown := backend.UnsubscribeParams(forwarded, master);
      }
      if master.failing == {} && AllValid(forwarded) {
        backend.DroppedAll(forwarded, master);
      }
    }
  }

  /**
   The field itself: between operations, in every run in which each transport alternates per name,
   a name's count plus the net effect of any prefix of the operations ahead is the number of
   transports that have the name subscribed after it, and stored counts are at least 1.
   */
  lemma CountFieldCountsTransports(m: TransportManager, k: nat, name: string)
    requires m.Consistent() && Alternates(AllChanges(m.View().accepted)) && k <= |Ahead(m.View())|
    ensures var prefix := m.View().executed + Ahead(m.View())[..k];
            && Positive(m.paramSubscriberCount)
            && CountOf(m.paramSubscriberCount, name) + Net(AllChanges(Ahead(m.View())[..k]), name)
               == (if SubscribedBy(prefix, name, WebSocket) then 1 else 0)
                + (if SubscribedBy(prefix, name, Gateway) then 1 else 0)
  {
    TwoTransports(m.View(), k, name);
  }
}
