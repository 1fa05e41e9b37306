/**
 TransportManager's parameter pipeline: operations of both transports go through one queue to one
 worker. First its interleavings, then the class that holds the queue.
 */
module ParameterQueue {
  import opened ParameterConversion

  /** Names the responder of one get or set request. */
  type RequestId = nat

  datatype Transport = WebSocket | Gateway

  /** `from` is not stored by the code; it says which transport made the call. */
  datatype ParameterOp =
    | GetParams(names: seq<string>, request: RequestId)
    | SetParams(parameters: seq<Parameter>, request: RequestId)
    | SubscribeParams(names: seq<string>, from: Transport)
    | UnsubscribeParams(names: seq<string>, from: Transport)

  /** Waiting: about to test the wait's predicate, with the mutex. Asleep: blocked, without it. */
  datatype Worker = Waiting | Asleep | Busy(op: ParameterOp) | Exited

  datatype State = State(
    queue: seq<ParameterOp>,
    shutdown: bool,                     // _paramOpShutdown
    worker: Worker,
    notifiesOwed: nat,                  // threads that have changed the state and not notified yet
    drained: seq<ParameterOp>,          // what stop() swapped out of the queue
    joined: bool,                       // stop() is over, and `drained` with it
    accepted: seq<ParameterOp>,         // history: operations that entered the queue
    executed: seq<ParameterOp>,         // history: operations the worker has finished
    submitted: multiset<RequestId>,     // history: get and set requests made
    settled: multiset<RequestId>        // history: responders responded to or dropped
  )

  datatype Event =
    | Enqueue(op: ParameterOp)
    | Notify
    | Take
    | Finish
    | WorkerExits
    | Sleep
    | SpuriousWake
    | StopDrains
    | StopJoins

  function Requests(op: ParameterOp): multiset<RequestId> {
    if op.GetParams? || op.SetParams? then multiset{op.request} else multiset{}
  }

  function AllRequests(ops: seq<ParameterOp>): multiset<RequestId> {
    if ops == [] then multiset{} else AllRequests(ops[..|ops| - 1]) + Requests(ops[|ops| - 1])
  }

  function InHand(w: Worker): seq<ParameterOp> {
    if w.Busy? then [w.op] else []
  }

  predicate Enabled(s: State, e: Event) {
    match e
    case Enqueue(_) => true
    case Notify => s.notifiesOwed > 0
    case Take => s.worker.Waiting? && s.queue != []
    case Finish => s.worker.Busy?
    case WorkerExits => s.worker.Waiting? && s.shutdown && s.queue == []
    case Sleep => s.worker.Waiting? && !s.shutdown && s.queue == []
    case SpuriousWake => s.worker.Asleep?
    case StopDrains => !s.shutdown
    case StopJoins => s.shutdown && s.worker.Exited? && !s.joined
  }

  function Apply(s: State, e: Event): State
    requires Enabled(s, e)
  {
    match e
    case Enqueue(op) =>
      if s.shutdown then
        s.(submitted := s.submitted + Requests(op), settled := s.settled + Requests(op))
      else
        s.(queue := s.queue + [op], accepted := s.accepted + [op], submitted := s.submitted + Requests(op),
           notifiesOwed := s.notifiesOwed + 1)
    case Notify =>
      s.(notifiesOwed := s.notifiesOwed - 1, worker := if s.worker.Asleep? then Waiting else s.worker)
    case Take => s.(worker := Busy(s.queue[0]), queue := s.queue[1..])
    case Finish =>
      s.(worker := Waiting, executed := s.executed + [s.worker.op], settled := s.settled + Requests(s.worker.op))
    case WorkerExits => s.(worker := Exited)
    case Sleep => s.(worker := Asleep)
    case SpuriousWake => s.(worker := Waiting)
    case StopDrains => s.(shutdown := true, drained := s.queue, queue := [], notifiesOwed := s.notifiesOwed + 1)
    case StopJoins => s.(joined := true, settled := s.settled + AllRequests(s.drained))
  }

  const START := State([], false, Waiting, 0, [], false, [], [], multiset{}, multiset{})

  predicate Legal(s: State, es: seq<Event>)
    decreases |es|
  {
    es == [] || (Enabled(s, es[0]) && Legal(Apply(s, es[0]), es[1..]))
  }

  function Run(s: State, es: seq<Event>): State
    requires Legal(s, es)
    decreases |es|
  {
    if es == [] then s else Run(Apply(s, es[0]), es[1..])
  }

  // ---------------------------------------------------------------- the invariant

  /** How often a responder still waits: in the worker's hand, queued, or drained and not destroyed. */
  function Outstanding(s: State, request: RequestId): nat {
    AllRequests(InHand(s.worker))[request] + AllRequests(s.queue)[request]
    + if s.joined then 0 else AllRequests(s.drained)[request]
  }

  predicate InOrder(s: State) {
    && s.accepted == s.executed + InHand(s.worker) + s.queue + s.drained
    && (if s.shutdown then s.queue == [] else s.drained == [])
    && (s.worker.Exited? || s.joined ==> s.shutdown)
    && (s.joined ==> s.worker.Exited?)
  }

  ghost predicate Conserved(s: State) {
    forall request :: s.submitted[request] == s.settled[request] + Outstanding(s, request)
  }

  /** Whoever sleeps although there is something to do is about to be notified. */
  predicate Wakeful(s: State) {
    s.worker.Asleep? && (s.shutdown || s.queue != []) ==> s.notifiesOwed > 0
  }

  ghost predicate Inv(s: State) {
    InOrder(s) && Wakeful(s) && Conserved(s)
  }

  lemma {:induction false} RequestsAppend(xs: seq<ParameterOp>, ys: seq<ParameterOp>)
    ensures AllRequests(xs + ys) == AllRequests(xs) + AllRequests(ys)
  {
    if ys == [] {
      assert xs + ys == xs;
    } else {
      assert (xs + ys)[..|xs + ys| - 1] == xs + ys[..|ys| - 1];
      RequestsAppend(xs, ys[..|ys| - 1]);
    }
  }

  lemma OneRequest(op: ParameterOp)
    ensures AllRequests([op]) == Requests(op)
  {
    assert [op][..0] == [];
  }

  lemma OrderStep(s: State, e: Event)
    requires InOrder(s) && Wakeful(s) && Enabled(s, e)
    ensures InOrder(Apply(s, e)) && Wakeful(Apply(s, e))
  {
    if e.Take? {
      assert s.queue == [s.queue[0]] + s.queue[1..];
    }
  }

  lemma ConservedFor(s: State, e: Event, request: RequestId)
    requires Inv(s) && Enabled(s, e)
    ensures var t := Apply(s, e); t.submitted[request] == t.settled[request] + Outstanding(t, request)
  {
    assert s.submitted[request] == s.settled[request] + Outstanding(s, request);
    match e {
      case Enqueue(op) => QueueGrows(s.queue, op);
      case Take => QueueShrinks(s.queue);
      case Finish => OneRequest(s.worker.op);
      case _ =>
    }
  }

  lemma ConservedStep(s: State, e: Event)
    requires Inv(s) && Enabled(s, e)
    ensures Conserved(Apply(s, e))
  {
    forall request { ConservedFor(s, e, request); }
  }

  lemma QueueGrows(queue: seq<ParameterOp>, op: ParameterOp)
    ensures AllRequests(queue + [op]) == AllRequests(queue) + Requests(op)
  {
    assert (queue + [op])[..|queue|] == queue;
  }

  lemma QueueShrinks(queue: seq<ParameterOp>)
    requires queue != []
    ensures AllRequests(queue) == AllRequests([queue[0]]) + AllRequests(queue[1..])
  {
    RequestsAppend([queue[0]], queue[1..]);
    assert queue == [queue[0]] + queue[1..];
  }

  lemma StepKeeps(s: State, e: Event)
    requires Inv(s) && Enabled(s, e)
    ensures Inv(Apply(s, e))
  {
    OrderStep(s, e);
    ConservedStep(s, e);
  }

  lemma {:induction false} RunKeeps(s: State, es: seq<Event>)
    requires Inv(s) && Legal(s, es)
    ensures Inv(Run(s, es))
    decreases |es|
  {
    if es != [] {
      StepKeeps(s, es[0]);
      RunKeeps(Apply(s, es[0]), es[1..]);
    }
  }

  // ---------------------------------------------------------------- the promises

  /** The operations enqueued in a run before stop() takes the queue away. */
  function EnqueuedBeforeStop(es: seq<Event>): seq<ParameterOp> {
    if es == [] || es[0].StopDrains? then []
    else (if es[0].Enqueue? then [es[0].op] else []) + EnqueuedBeforeStop(es[1..])
  }

  /** How many get and set requests with this responder are made in a run. */
  function RequestsMade(es: seq<Event>, request: RequestId): nat {
    if es == [] then 0
    else (if es[0].Enqueue? && (es[0].op.GetParams? || es[0].op.SetParams?) && es[0].op.request == request then 1 else 0)
         + RequestsMade(es[1..], request)
  }

  lemma AcceptedStep(s: State, e: Event)
    requires Enabled(s, e)
    ensures Apply(s, e).accepted == s.accepted + if e.Enqueue? && !s.shutdown then [e.op] else []
    ensures Apply(s, e).shutdown == (s.shutdown || e.StopDrains?)
  {
  }

  lemma {:induction false} AcceptedFrom(s: State, es: seq<Event>)
    requires Legal(s, es)
    ensures Run(s, es).accepted == s.accepted + if s.shutdown then [] else EnqueuedBeforeStop(es)
    decreases |es|
  {
    if es != [] {
      AcceptedStep(s, es[0]);
      AcceptedFrom(Apply(s, es[0]), es[1..]);
    }
  }

  lemma {:induction false} SubmittedFrom(s: State, es: seq<Event>, request: RequestId)
    requires Legal(s, es)
    ensures Run(s, es).submitted[request] == s.submitted[request] + RequestsMade(es, request)
    decreases |es|
  {
    if es != [] {
      SubmittedFrom(Apply(s, es[0]), es[1..], request);
    }
  }

  /**
   In every interleaving, what the worker has done, has in hand and has queued, followed by what
   stop() took away, is what was enqueued before stop(), in that order; shutdown leaves the queue empty.
   */
  lemma Linearised(es: seq<Event>)
    requires Legal(START, es)
    ensures var s := Run(START, es);
            && s.executed + InHand(s.worker) + s.queue + s.drained == EnqueuedBeforeStop(es)
            && (!s.shutdown ==> s.drained == [])
            && (s.shutdown ==> s.queue == [])
  {
    RunKeeps(START, es);
    AcceptedFrom(START, es);
  }

  /** Every responder is settled as often as its request was made, unless it is still outstanding. */
  lemma RespondersConserved(es: seq<Event>, request: RequestId)
    requires Legal(START, es)
    ensures var s := Run(START, es);
            && RequestsMade(es, request) == s.settled[request] + Outstanding(s, request)
            && (s.joined ==> s.settled[request] == RequestsMade(es, request))
  {
    RunKeeps(START, es);
    SubmittedFrom(START, es, request);
    if Run(START, es).joined {
      assert Outstanding(Run(START, es), request) == 0;
    }
  }

  /** The worker moves, by itself or because it is woken. */
  predicate Moves(s: State, e: Event)
    requires Enabled(s, e)
  {
    Apply(s, e).worker != s.worker
  }

  function CountMoves(s: State, es: seq<Event>): nat
    requires Legal(s, es)
    decreases |es|
  {
    if es == [] then 0 else (if Moves(s, es[0]) then 1 else 0) + CountMoves(Apply(s, es[0]), es[1..])
  }

  /** Moves left to the worker once shutdown is set. */
  function WorkLeft(w: Worker): nat {
    match w
    case Exited => 0
    case Waiting => 1
    case Busy(_) => 2
    case Asleep => 2
  }

  lemma StopStep(s: State, e: Event)
    requires InOrder(s) && s.shutdown && Enabled(s, e)
    ensures var t := Apply(s, e);
            && t.shutdown && t.accepted == s.accepted
            && t.executed + InHand(t.worker) == s.executed + InHand(s.worker)
            && (if Moves(s, e) then 1 else 0) + WorkLeft(t.worker) == WorkLeft(s.worker)
  {
  }

  /**
   After stop() has set the flag, whatever else happens: nothing is accepted any more, at most the
   operation in hand is finished, and the worker has two moves left at most, the last being its exit.
   */
  lemma {:induction false} StopEndsWork(s: State, es: seq<Event>)
    requires Inv(s) && s.shutdown && Legal(s, es)
    ensures var t := Run(s, es);
            && t.accepted == s.accepted
            && t.executed + InHand(t.worker) == s.executed + InHand(s.worker)
            && CountMoves(s, es) + WorkLeft(t.worker) == WorkLeft(s.worker)
    decreases |es|
  {
    if es != [] {
      StepKeeps(s, es[0]);
      StopStep(s, es[0]);
      StopEndsWork(Apply(s, es[0]), es[1..]);
    }
  }

  /**
   No wake-up is lost: while an operation is queued, or shutdown is set and the worker has not
   exited, the worker can move by itself, or sleeps and a notification is on its way.
   */
  lemma NoLostWakeUp(es: seq<Event>)
    requires Legal(START, es)
    requires var s := Run(START, es); !s.worker.Exited? && (s.shutdown || s.queue != [])
    ensures var s := Run(START, es);
            exists e :: Enabled(s, e) && Moves(s, e) && !e.SpuriousWake?
  {
    RunKeeps(START, es);
    var s := Run(START, es);
    var e := match s.worker
      case Busy(_) => Finish
      case Asleep => Notify
      case Waiting => if s.queue != [] then Take else WorkerExits
      case Exited => Notify;
    assert Enabled(s, e) && Moves(s, e);
  }

  /** The first n accepted operations have been executed, or stop() has intervened. */
  predicate Served(s: State, n: nat) {
    |s.executed| >= n || s.shutdown
  }

  /** How many moves of the worker that can take. */
  function Distance(s: State, n: nat): int {
    2 * (n - |s.executed|) + if s.worker.Asleep? then 1 else if s.worker.Busy? then -1 else 0
  }

  lemma ServedStep(s: State, e: Event, n: nat)
    requires Inv(s) && Enabled(s, e) && n <= |s.accepted| && !Served(s, n)
    ensures var t := Apply(s, e);
            && n <= |t.accepted|
            && (Served(t, n) || Distance(t, n) == Distance(s, n) - if Moves(s, e) then 1 else 0)
  {
  }

  lemma ServedStays(s: State, e: Event, n: nat)
    requires Enabled(s, e) && Served(s, n) && n <= |s.accepted|
    ensures Served(Apply(s, e), n) && n <= |Apply(s, e).accepted|
  {
  }

  /** The n-th accepted operation is executed, or stop() intervenes, within this many moves of the worker. */
  lemma {:induction false} AcceptedIsExecuted(s: State, es: seq<Event>, n: nat)
    requires Inv(s) && Legal(s, es) && n <= |s.accepted|
    requires !Served(s, n) ==> CountMoves(s, es) >= Distance(s, n)
    ensures Served(Run(s, es), n)
    decreases |es|
  {
    if es != [] {
      StepKeeps(s, es[0]);
      if Served(s, n) {
        ServedStays(s, es[0], n);
      } else {
        ServedStep(s, es[0], n);
      }
      AcceptedIsExecuted(Apply(s, es[0]), es[1..], n);
    }
  }

  // ---------------------------------------------------------------- reachable states

  ghost predicate ReachedBy(s: State, es: seq<Event>) {
    Legal(START, es) && Run(START, es) == s
  }

  ghost predicate Reachable(s: State) {
    exists es :: ReachedBy(s, es)
  }

  lemma {:induction false} RunSnoc(s: State, es: seq<Event>, e: Event)
    requires Legal(s, es) && Enabled(Run(s, es), e)
    ensures Legal(s, es + [e]) && Run(s, es + [e]) == Apply(Run(s, es), e)
    decreases |es|
  {
    if es == [] {
      assert [e][1..] == [];
    } else {
      assert (es + [e])[1..] == es[1..] + [e];
      RunSnoc(Apply(s, es[0]), es[1..], e);
    }
  }

  lemma ReachStep(s: State, e: Event)
    requires Reachable(s) && Enabled(s, e)
    ensures Reachable(Apply(s, e))
  {
    var es :| ReachedBy(s, es);
    RunSnoc(START, es, e);
    assert ReachedBy(Apply(s, e), es + [e]);
  }

  lemma ReachableInv(s: State)
    requires Reachable(s)
    ensures Inv(s)
  {
    var es :| ReachedBy(s, es);
    RunKeeps(START, es);
  }

  lemma ShutdownEmpties(s: State)
    requires Reachable(s) && s.shutdown
    ensures s.queue == []
  {
    ReachableInv(s);
  }

  /** After stop() every responder is settled. */
  lemma AllSettled(s: State, request: RequestId)
    requires Reachable(s) && s.joined
    ensures s.submitted[request] == s.settled[request]
  {
    ReachableInv(s);
    assert Outstanding(s, request) == 0;
  }
}
