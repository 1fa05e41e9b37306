/**
 Ros1ParameterInterface::shutdown against the parameter worker. The check of the shutdown flag,
 each call to the master and each update of the set are separate steps of the worker; the swap and
 each unregistration are separate steps of the thread that shuts down. The master is reliable.
 */
module ParameterShutdown {
  import opened Wrappers
  import opened Sequences

  /** `pending`: the master has answered for this name and the set has not been updated yet. */
  datatype Worker =
    | Idle
    | Entering(names: seq<string>)                                   // before the flag is checked
    | Subscribing(todo: seq<string>, pending: Option<string>)
    | Unsubscribing(todo: seq<string>, pending: Option<string>)

  datatype Shutdown = NotYet | Dropping(todo: set<string>) | Over

  datatype State = State(
    registered: set<string>,       // at the master
    subscribed: set<string>,       // _subscribedParams
    worker: Worker,
    shutdown: Shutdown,
    inFlight: set<string>          // history: what the subscribe call running at the swap had left
  )

  datatype Event =
    | CallSubscribe(names: seq<string>)
    | CheckFlag
    | SubscribeNext
    | RecordSubscribed
    | CallUnsubscribe(names: seq<string>)
    | UnsubscribeNext
    | RecordUnsubscribed
    | WorkerReturns
    | Swap
    | DropOne(name: string)
    | DropsDone

  /** The names a subscribe call has left that it may subscribe to, and the one being recorded. */
  function Left(w: Worker, allowed: string -> bool): set<string> {
    if !w.Subscribing? then {}
    else (set n | n in w.todo && allowed(n)) + if w.pending.Some? then {w.pending.value} else {}
  }

  predicate Enabled(s: State, e: Event) {
    match e
    case CallSubscribe(_) => s.worker.Idle?
    case CheckFlag => s.worker.Entering?
    case SubscribeNext => s.worker.Subscribing? && s.worker.pending.None? && s.worker.todo != []
    case RecordSubscribed => s.worker.Subscribing? && s.worker.pending.Some?
    case CallUnsubscribe(_) => s.worker.Idle?
    case UnsubscribeNext => s.worker.Unsubscribing? && s.worker.pending.None? && s.worker.todo != []
    case RecordUnsubscribed => s.worker.Unsubscribing? && s.worker.pending.Some?
    case WorkerReturns => (s.worker.Subscribing? || s.worker.Unsubscribing?) && s.worker.pending.None? && s.worker.todo == []
    case Swap => s.shutdown.NotYet?
    case DropOne(name) => s.shutdown.Dropping? && name in s.shutdown.todo
    case DropsDone => s.shutdown.Dropping? && s.shutdown.todo == {}
  }

  function Apply(s: State, e: Event, allowed: string -> bool): State
    requires Enabled(s, e)
  {
    match e
    case CallSubscribe(names) => s.(worker := Entering(names))
    case CheckFlag => s.(worker := if s.shutdown.NotYet? then Subscribing(s.worker.names, None) else Idle)
    case SubscribeNext =>
      var name := s.worker.todo[0];
      if allowed(name) then
        s.(registered := s.registered + {name}, worker := Subscribing(s.worker.todo[1..], Some(name)))
      else s.(worker := Subscribing(s.worker.todo[1..], None))
    case RecordSubscribed =>
      s.(subscribed := s.subscribed + {s.worker.pending.value}, worker := Subscribing(s.worker.todo, None))
    case CallUnsubscribe(names) => s.(worker := Unsubscribing(names, None))
    case UnsubscribeNext =>
      var name := s.worker.todo[0];
      s.(registered := s.registered - {name}, worker := Unsubscribing(s.worker.todo[1..], Some(name)))
    case RecordUnsubscribed =>
      s.(subscribed := s.subscribed - {s.worker.pending.value}, worker := Unsubscribing(s.worker.todo, None))
    case WorkerReturns => s.(worker := Idle)
    case Swap =>
      s.(shutdown := Dropping(s.subscribed), subscribed := {}, inFlight := Left(s.worker, allowed))
    case DropOne(name) =>
      s.(registered := s.registered - {name}, shutdown := Dropping(s.shutdown.todo - {name}))
    case DropsDone => s.(shutdown := Over)
  }

  const START := State({}, {}, Idle, NotYet, {})

  predicate Legal(s: State, es: seq<Event>, allowed: string -> bool)
    decreases |es|
  {
    es == [] || (Enabled(s, es[0]) && Legal(Apply(s, es[0], allowed), es[1..], allowed))
  }

  function Run(s: State, es: seq<Event>, allowed: string -> bool): State
    requires Legal(s, es, allowed)
    decreases |es|
  {
    if es == [] then s else Run(Apply(s, es[0], allowed), es[1..], allowed)
  }

  // ---------------------------------------------------------------- the invariant

  function Pending(w: Worker): set<string> {
    if (w.Subscribing? || w.Unsubscribing?) && w.pending.Some? then {w.pending.value} else {}
  }

  predicate Inv(s: State, allowed: string -> bool) {
    match s.shutdown
    case NotYet =>
      // The set lags behind the master by the one name that is being recorded.
      && s.registered == (if s.worker.Unsubscribing? then s.subscribed - Pending(s.worker)
                          else s.subscribed + Pending(s.worker))
    case Dropping(todo) => s.registered <= todo + s.inFlight && Left(s.worker, allowed) <= s.inFlight
    case Over => s.registered <= s.inFlight && Left(s.worker, allowed) <= s.inFlight
  }

  lemma StepKeeps(s: State, e: Event, allowed: string -> bool)
    requires Inv(s, allowed) && Enabled(s, e)
    ensures Inv(Apply(s, e, allowed), allowed)
  {
    if e.SubscribeNext? {
      assert s.worker.todo == [s.worker.todo[0]] + s.worker.todo[1..];
    }
  }

  lemma {:induction false} RunKeeps(s: State, es: seq<Event>, allowed: string -> bool)
    requires Inv(s, allowed) && Legal(s, es, allowed)
    ensures Inv(Run(s, es, allowed), allowed)
    decreases |es|
  {
    if es != [] {
      StepKeeps(s, es[0], allowed);
      RunKeeps(Apply(s, es[0], allowed), es[1..], allowed);
    }
  }

  /** Nothing is registered or recorded that may not be. */
  ghost predicate OnlyAllowed(s: State, allowed: string -> bool) {
    && (forall n :: n in s.registered || n in s.subscribed ==> allowed(n))
    && (s.worker.Subscribing? ==> forall n :: n in Pending(s.worker) ==> allowed(n))
  }

  lemma OnlyAllowedStep(s: State, e: Event, allowed: string -> bool)
    requires OnlyAllowed(s, allowed) && Enabled(s, e)
    ensures OnlyAllowed(Apply(s, e, allowed), allowed)
  {
  }

  lemma {:induction false} OnlyAllowedRun(s: State, es: seq<Event>, allowed: string -> bool)
    requires OnlyAllowed(s, allowed) && Legal(s, es, allowed)
    ensures OnlyAllowed(Run(s, es, allowed), allowed)
    decreases |es|
  {
    if es != [] {
      OnlyAllowedStep(s, es[0], allowed);
      OnlyAllowedRun(Apply(s, es[0], allowed), es[1..], allowed);
    }
  }

  // ---------------------------------------------------------------- the promises

  /** After shutdown the master has no registration but names of the subscribe call that ran at the swap. */
  lemma ResidueBounded(es: seq<Event>, allowed: string -> bool)
    requires Legal(START, es, allowed) && Run(START, es, allowed).shutdown.Over?
    ensures Run(START, es, allowed).registered <= Run(START, es, allowed).inFlight
  {
    RunKeeps(START, es, allowed);
  }

  lemma {:induction false} InFlightFixed(s: State, es: seq<Event>, allowed: string -> bool)
    requires !s.shutdown.NotYet? && Legal(s, es, allowed)
    ensures Run(s, es, allowed).inFlight == s.inFlight && !Run(s, es, allowed).shutdown.NotYet?
    decreases |es|
  {
    if es != [] {
      InFlightFixed(Apply(s, es[0], allowed), es[1..], allowed);
    }
  }

  /** A subscribe call that has not passed its flag check when shutdown happens registers nothing. */
  lemma {:induction false} LaterCallsRegisterNothing(s: State, es: seq<Event>, allowed: string -> bool)
    requires !s.shutdown.NotYet? && !s.worker.Subscribing? && Legal(s, es, allowed)
    ensures Run(s, es, allowed).registered <= s.registered && !Run(s, es, allowed).worker.Subscribing?
    decreases |es|
  {
    if es != [] {
      LaterCallsRegisterNothing(Apply(s, es[0], allowed), es[1..], allowed);
    }
  }

  // ---------------------------------------------------------------- exactly what stays behind

  function NamesOf(names: seq<string>): set<string> {
    set n | n in names
  }

  /** The names of the unsubscribe calls that begin in a run. */
  function Unsubscribed(es: seq<Event>): set<string> {
    if es == [] then {} else (if es[0].CallUnsubscribe? then NamesOf(es[0].names) else {}) + Unsubscribed(es[1..])
  }

  function Todo(w: Worker): set<string> {
    if w.Unsubscribing? then NamesOf(w.todo) else {}
  }

  /** After the swap: `dropped` is what shutdown() unregisters, `gone` has been unsubscribed since. */
  ghost predicate Exact(s: State, allowed: string -> bool, dropped: set<string>, gone: set<string>) {
    && !s.shutdown.NotYet?
    && (s.shutdown.Dropping? ==> s.shutdown.todo <= dropped)
    && Left(s.worker, allowed) <= s.inFlight
    && (forall n :: n in s.inFlight && n !in dropped && n !in gone ==> n in s.registered || n in Left(s.worker, allowed))
    && (s.worker.Subscribing? ==> Pending(s.worker) <= s.registered + dropped)
    && (gone != {} ==> !s.worker.Subscribing?)
    && (forall n :: n in s.registered && n in gone ==> n in Todo(s.worker))
    && (s.inFlight != {} ==> Todo(s.worker) <= gone)
  }

  lemma ExactStep(s: State, e: Event, allowed: string -> bool, dropped: set<string>, gone: set<string>)
    requires Exact(s, allowed, dropped, gone) && Enabled(s, e)
    ensures Exact(Apply(s, e, allowed), allowed, dropped, gone + if e.CallUnsubscribe? then NamesOf(e.names) else {})
  {
    match e {
      case SubscribeNext => assert s.worker.todo == [s.worker.todo[0]] + s.worker.todo[1..];
      case UnsubscribeNext =>
        assert s.worker.todo == [s.worker.todo[0]] + s.worker.todo[1..];
        assert NamesOf(s.worker.todo) == {s.worker.todo[0]} + NamesOf(s.worker.todo[1..]);
      case RecordSubscribed =>
        assert Left(s.worker, allowed) == Left(Apply(s, e, allowed).worker, allowed) + Pending(s.worker);
      case WorkerReturns =>
        assert Left(s.worker, allowed) == {} && Todo(s.worker) == {};
      case _ =>
    }
  }

  lemma {:induction false} ExactRun(s: State, es: seq<Event>, allowed: string -> bool, dropped: set<string>, gone: set<string>)
    requires Exact(s, allowed, dropped, gone) && Legal(s, es, allowed)
    ensures Exact(Run(s, es, allowed), allowed, dropped, gone + Unsubscribed(es))
    decreases |es|
  {
    if es == [] {
      assert gone + {} == gone;
    } else {
      var now := if es[0].CallUnsubscribe? then NamesOf(es[0].names) else {};
      ExactStep(s, es[0], allowed, dropped, gone);
      ExactRun(Apply(s, es[0], allowed), es[1..], allowed, dropped, gone + now);
      assert gone + now + Unsubscribed(es[1..]) == gone + Unsubscribed(es);
    }
  }

  /**
   In any run: when shutdown() is over and the worker idle, what stays registered is what the
   subscribe call running at the swap had left, without the names unsubscribed since; only of names
   that were subscribed already, which shutdown() unregisters as well, some may be missing.
   */
  lemma ResidueExact(before: seq<Event>, after: seq<Event>, allowed: string -> bool)
    requires Legal(START, before, allowed)
    requires var s := Run(START, before, allowed);
             && Enabled(s, Swap) && Legal(Apply(s, Swap, allowed), after, allowed)
             && Run(Apply(s, Swap, allowed), after, allowed).shutdown.Over?
             && Run(Apply(s, Swap, allowed), after, allowed).worker.Idle?
    ensures var s := Run(START, before, allowed);
            var t := Run(Apply(s, Swap, allowed), after, allowed);
            var residue := Left(s.worker, allowed) - Unsubscribed(after);
            && residue - s.subscribed <= t.registered <= residue
            && (Left(s.worker, allowed) !! s.subscribed ==> t.registered == residue)
  {
    RunKeeps(START, before, allowed);
    var s := Run(START, before, allowed);
    var u := Apply(s, Swap, allowed);
    StepKeeps(s, Swap, allowed);
    RunKeeps(u, after, allowed);
    InFlightFixed(u, after, allowed);
    ExactRun(u, after, allowed, s.subscribed, {});
  }

  // ---------------------------------------------------------------- what the counts forward

  /** A subscribe call has names that are not subscribed, each once: what the counts forward. */
  ghost predicate Fresh(names: seq<string>, subscribed: set<string>) {
    NoRepeats(names) && forall n :: n in names ==> n !in subscribed
  }

  ghost predicate FreshCalls(s: State, es: seq<Event>, allowed: string -> bool)
    requires Legal(s, es, allowed)
    decreases |es|
  {
    es == [] || ((es[0].CallSubscribe? ==> Fresh(es[0].names, s.subscribed))
                 && FreshCalls(Apply(s, es[0], allowed), es[1..], allowed))
  }

  /** The running subscribe call has yet to subscribe what it has left. */
  ghost predicate Ahead(s: State) {
    match s.worker
    case Entering(names) => Fresh(names, s.subscribed)
    case Subscribing(todo, pending) =>
      Fresh(todo, s.subscribed) && (pending.Some? ==> pending.value !in todo && pending.value !in s.subscribed)
    case _ => true
  }

  lemma {:induction false} AheadRun(s: State, es: seq<Event>, allowed: string -> bool)
    requires Ahead(s) && Legal(s, es, allowed) && FreshCalls(s, es, allowed)
    ensures Ahead(Run(s, es, allowed))
    decreases |es|
  {
    if es != [] {
      AheadStep(s, es[0], allowed);
      AheadRun(Apply(s, es[0], allowed), es[1..], allowed);
    }
  }

  lemma AheadStep(s: State, e: Event, allowed: string -> bool)
    requires Ahead(s) && Enabled(s, e) && (e.CallSubscribe? ==> Fresh(e.names, s.subscribed))
    ensures Ahead(Apply(s, e, allowed))
  {
    if e.SubscribeNext? {
      assert forall n :: n in s.worker.todo[1..] ==> n in s.worker.todo;
    }
  }

  /** With calls of that kind, the residue is exactly what the running call had left, without later unsubscriptions. */
  lemma ResidueOfFreshCalls(before: seq<Event>, after: seq<Event>, allowed: string -> bool)
    requires Legal(START, before, allowed) && FreshCalls(START, before, allowed)
    requires var s := Run(START, before, allowed);
             && Enabled(s, Swap) && Legal(Apply(s, Swap, allowed), after, allowed)
             && Run(Apply(s, Swap, allowed), after, allowed).shutdown.Over?
             && Run(Apply(s, Swap, allowed), after, allowed).worker.Idle?
    ensures var s := Run(START, before, allowed);
            Run(Apply(s, Swap, allowed), after, allowed).registered == Left(s.worker, allowed) - Unsubscribed(after)
  {
    AheadRun(START, before, allowed);
    ResidueExact(before, after, allowed);
  }

  lemma {:induction false} Prepend(s: State, e: Event, es: seq<Event>, allowed: string -> bool)
    requires Enabled(s, e) && Legal(Apply(s, e, allowed), es, allowed)
    ensures Legal(s, [e] + es, allowed)
    ensures Run(s, [e] + es, allowed) == Run(Apply(s, e, allowed), es, allowed)
  {
    assert ([e] + es)[1..] == es;
  }

  /** A run that leaves a registration behind: the flag is checked before the swap, the call made after. */
  lemma ResidueCanStay(name: string, allowed: string -> bool) returns (es: seq<Event>)
    requires allowed(name)
    ensures Legal(START, es, allowed)
    ensures Run(START, es, allowed).shutdown.Over? && Run(START, es, allowed).worker.Idle?
    ensures Run(START, es, allowed).registered == {name}
  {
    var s1 := Apply(START, CallSubscribe([name]), allowed);
    var s2 := Apply(s1, CheckFlag, allowed);
    var s3 := Apply(s2, Swap, allowed);
    var s4 := Apply(s3, DropsDone, allowed);
    var s5 := Apply(s4, SubscribeNext, allowed);
    var s6 := Apply(s5, RecordSubscribed, allowed);
    es := [];
    Prepend(s6, WorkerReturns, es, allowed);             es := [WorkerReturns] + es;
    Prepend(s5, RecordSubscribed, es, allowed);          es := [RecordSubscribed] + es;
    Prepend(s4, SubscribeNext, es, allowed);             es := [SubscribeNext] + es;
    Prepend(s3, DropsDone, es, allowed);                 es := [DropsDone] + es;
    Prepend(s2, Swap, es, allowed);                      es := [Swap] + es;
    Prepend(s1, CheckFlag, es, allowed);                 es := [CheckFlag] + es;
    Prepend(START, CallSubscribe([name]), es, allowed);  es := [CallSubscribe([name])] + es;
  }
}
