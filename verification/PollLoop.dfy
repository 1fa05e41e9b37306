/**
 The master polling loop: its backoff, and its wait on a condition variable against threads that
 poke it or shut it down. Setting a flag and notifying are two steps, as in the code.
 */
module PollLoop {
  const MIN_UPDATE_PERIOD_MS := 100
  /** std::size_t has 64 bits. */
  const SIZE_LIMIT := 0x1_0000_0000_0000_0000

  type Size = x: int | 0 <= x < SIZE_LIMIT

  // ---------------------------------------------------------------- backoff

  function Pow2(n: nat): (p: nat)
    ensures p > n
  {
    if n == 0 then 1 else 2 * Pow2(n - 1)
  }

  function Min(a: int, b: int): int {
    if a <= b then a else b
  }

  function Max(a: int, b: int): int {
    if a >= b then a else b
  }

  /** The wait after a poll, for the counter as already incremented. */
  function Period(updateCount: Size, maxPeriod: Size): int {
    Max(MIN_UPDATE_PERIOD_MS, Min(Pow2(Min(updateCount, 32)), maxPeriod))
  }

  function Increment(updateCount: Size): Size {
    (updateCount + 1) % SIZE_LIMIT
  }

  lemma {:induction false} Pow2Grows(m: nat, n: nat)
    requires m <= n
    ensures Pow2(m) <= Pow2(n)
  {
    if m < n {
      Pow2Grows(m, n - 1);
    }
  }

  lemma Pow2Values()
    ensures Pow2(6) == 64 && Pow2(7) == 128 && Pow2(32) == 0x1_0000_0000
  {
    assert Pow2(3) == 8 && Pow2(5) == 32;
    assert Pow2(9) == 512 && Pow2(11) == 2048 && Pow2(13) == 8192 && Pow2(15) == 0x8000;
    assert Pow2(17) == 0x2_0000 && Pow2(19) == 0x8_0000 && Pow2(21) == 0x20_0000 && Pow2(23) == 0x80_0000;
    assert Pow2(25) == 0x200_0000 && Pow2(27) == 0x800_0000 && Pow2(29) == 0x2000_0000 && Pow2(31) == 0x8000_0000;
  }

  /** More polls never shorten the wait, which stays between the floor and the configured bound. */
  lemma PeriodBounds(k: Size, l: Size, maxPeriod: Size)
    requires k <= l
    ensures 100 <= Period(k, maxPeriod) <= Period(l, maxPeriod) <= if maxPeriod >= 100 then maxPeriod else 100
  {
    Pow2Grows(Min(k, 32), Min(l, 32));
  }

  /** The wait leaves its floor at the seventh poll, not at the second. */
  lemma AboveFloorIff(k: Size, maxPeriod: Size)
    ensures Period(k, maxPeriod) >= 100
    ensures Period(k, maxPeriod) > 100 <==> k >= 7 && maxPeriod > 100
    ensures k == 7 && maxPeriod >= 128 ==> Period(k, maxPeriod) == 128
  {
    Pow2Values();
    if k >= 7 {
      Pow2Grows(7, Min(k, 32));
    } else {
      Pow2Grows(k, 6);
    }
  }

  /** The wait doubles from poll k to poll k + 1 exactly while neither floor nor bound interferes. */
  lemma DoublesIff(k: Size, maxPeriod: Size)
    requires k + 1 < SIZE_LIMIT
    ensures Period(k + 1, maxPeriod) == 2 * Period(k, maxPeriod) <==> 7 <= k < 32 && Pow2(k + 1) <= maxPeriod
  {
    AboveFloorIff(k, maxPeriod);
    AboveFloorIff(k + 1, maxPeriod);
    Pow2Values();
    if k < 32 {
      assert Pow2(k + 1) == 2 * Pow2(k);
    }
    if k <= 6 {
      Pow2Grows(k + 1, 7);
    } else {
      Pow2Grows(7, Min(k, 32));
    }
  }

  /** It reaches the bound, or 2^32 if that is smaller, once the power of two has. */
  lemma CapReachedIff(k: Size, maxPeriod: Size)
    ensures Period(k, maxPeriod) == (if maxPeriod >= 100 then maxPeriod else 100)
        <==> (maxPeriod <= 100 || maxPeriod <= Pow2(if k <= 32 then k else 32))
    ensures k >= 32 && maxPeriod <= 0x1_0000_0000 ==> Period(k, maxPeriod) == if maxPeriod >= 100 then maxPeriod else 100
  {
    Pow2Values();
  }

  /** The one exception to growth: the counter wraps, and a wait above the floor falls back to it. */
  lemma NextWaitShorterIff(k: Size, maxPeriod: Size)
    ensures Period(Increment(k), maxPeriod) < Period(k, maxPeriod)
        <==> k == 0xFFFF_FFFF_FFFF_FFFF && maxPeriod > 100
  {
    if k == SIZE_LIMIT - 1 {
      AboveFloorIff(k, maxPeriod);
      AboveFloorIff(0, maxPeriod);
    } else {
      PeriodBounds(k, k + 1, maxPeriod);
    }
  }

  // ---------------------------------------------------------------- the loop and its disturbers

  datatype Pc =
    | Checking                   // at the loop condition
    | Cycling                    // querying the master
    | Testing                    // has _pollMutex, about to test the wait's predicate
    | Sleeping                   // blocked in the wait, _pollMutex released
    | Waking(timedOut: bool)     // out of the block, has to get _pollMutex back
    | WaitOver                   // wait_for has returned, _pollMutex held
    | Exited

  datatype State = State(
    pc: Pc,
    shuttingDown: bool,
    pollPoke: bool,
    updateCount: Size,
    period: int,                 // the current or last wait
    notifiesOwed: nat,           // threads that have set a flag and not notified yet
    pokes: nat,                  // pokePoll calls so far
    covered: nat                 // of those, how many came before the latest cycle started
  )

  datatype Event =
    | Check(rosOk: bool)
    | EndCycle(maxPeriod: Size)
    | Test
    | TimeOut
    | SpuriousWake
    | Reacquire
    | FinishWait
    | Poke                       // pokePoll, under the mutex
    | ShutDown                   // the destructor, under the mutex
    | Notify                     // the notify_all of either

  predicate MutexFree(s: State) {
    !s.pc.Testing? && !s.pc.WaitOver?
  }

  predicate Wanted(s: State) {
    s.shuttingDown || s.pollPoke
  }

  predicate Enabled(s: State, e: Event) {
    match e
    case Check(_) => s.pc.Checking?
    case EndCycle(_) => s.pc.Cycling?
    case Test => s.pc.Testing?
    case TimeOut => s.pc.Sleeping?
    case SpuriousWake => s.pc.Sleeping?
    case Reacquire => s.pc.Waking?
    case FinishWait => s.pc.WaitOver?
    case Poke => MutexFree(s)
    case ShutDown => MutexFree(s)
    case Notify => s.notifiesOwed > 0
  }

  function Apply(s: State, e: Event): State
    requires Enabled(s, e)
  {
    match e
    case Check(rosOk) => if !s.shuttingDown && rosOk then s.(pc := Cycling, covered := s.pokes) else s.(pc := Exited)
    case EndCycle(maxPeriod) =>
      var count := Increment(s.updateCount);
      s.(pc := Testing, updateCount := count, period := Period(count, maxPeriod))
    case Test => s.(pc := if Wanted(s) then WaitOver else Sleeping)
    case TimeOut => s.(pc := Waking(true))
    case SpuriousWake => s.(pc := Waking(false))
    case Reacquire => s.(pc := if Wanted(s) || s.pc.timedOut then WaitOver else Sleeping)
    case FinishWait =>
      if s.pollPoke then s.(pc := Checking, pollPoke := false, updateCount := 0)
      else s.(pc := Checking)
    case Poke => s.(pollPoke := true, pokes := s.pokes + 1, notifiesOwed := s.notifiesOwed + 1)
    case ShutDown => s.(shuttingDown := true, notifiesOwed := s.notifiesOwed + 1)
    case Notify =>
      s.(notifiesOwed := s.notifiesOwed - 1, pc := if s.pc.Sleeping? then Waking(false) else s.pc)
  }

  const START := State(Checking, false, false, 0, 0, 0, 0, 0)

  predicate Legal(s: State, es: seq<Event>)
    decreases |es|
  {
    es == [] || (Enabled(s, es[0]) && Legal(Apply(s, es[0]), es[1..]))
  }

  function Run(s: State, es: seq<Event>): State
    requires Legal(s, es)
    decreases |es|
  {
    if es == [] then s else Run(Apply(s, es[0]), es[1..])
  }

  predicate Inv(s: State) {
    && s.covered <= s.pokes
    // A poke that no cycle has covered is still flagged, or was just taken and a cycle is next.
    && (s.covered < s.pokes ==> s.pollPoke || s.pc.Checking? || s.pc.Exited?)
    // Whoever sleeps through a set flag is about to be notified.
    && (s.pc.Sleeping? && Wanted(s) ==> s.notifiesOwed > 0)
  }

  lemma StepKeeps(s: State, e: Event)
    requires Inv(s) && Enabled(s, e)
    ensures Inv(Apply(s, e))
  {
  }

  lemma {:induction false} RunKeeps(s: State, es: seq<Event>)
    requires Inv(s) && Legal(s, es)
    ensures Inv(Run(s, es))
    decreases |es|
  {
    if es != [] {
      StepKeeps(s, es[0]);
      RunKeeps(Apply(s, es[0]), es[1..]);
    }
  }

  /** Cycles ended in a run since a wait last ended with a poke, after n before the run. */
  function CyclesSincePoke(s: State, es: seq<Event>, n: nat): nat
    requires Legal(s, es)
    decreases |es|
  {
    if es == [] then n
    else
      var now := if es[0].EndCycle? then n + 1 else if es[0].FinishWait? && s.pollPoke then 0 else n;
      CyclesSincePoke(Apply(s, es[0]), es[1..], now)
  }

  lemma OneMoreCycle(n: nat)
    ensures (n % SIZE_LIMIT + 1) % SIZE_LIMIT == (n + 1) % SIZE_LIMIT
  {
  }

  lemma {:induction false} CounterCountsCycles(s: State, es: seq<Event>, n: nat)
    requires Legal(s, es) && s.updateCount == n % SIZE_LIMIT
    ensures Run(s, es).updateCount == CyclesSincePoke(s, es, n) % SIZE_LIMIT
    decreases |es|
  {
    if es != [] {
      var now := if es[0].EndCycle? then n + 1 else if es[0].FinishWait? && s.pollPoke then 0 else n;
      OneMoreCycle(n);
      CounterCountsCycles(Apply(s, es[0]), es[1..], now);
    }
  }

  /**
   In every run the wait after the n-th cycle since the start, or since a poke last ended a wait,
   is Period(n): pokes, and nothing else, restart the backoff.
   */
  lemma WaitFollowsBackoff(es: seq<Event>, maxPeriod: Size)
    requires Legal(START, es) && Enabled(Run(START, es), EndCycle(maxPeriod))
    ensures Apply(Run(START, es), EndCycle(maxPeriod)).period
         == Period((CyclesSincePoke(START, es, 0) + 1) % SIZE_LIMIT, maxPeriod)
  {
    CounterCountsCycles(START, es, 0);
    var n := CyclesSincePoke(START, es, 0);
    OneMoreCycle(n);
  }

  // ---------------------------------------------------------------- no lost wake-up

  /** Moves of the poll thread until it next evaluates the loop condition, if it need not sleep. */
  function Distance(pc: Pc): nat {
    match pc
    case Exited => 0
    case Checking => 1
    case WaitOver => 2
    case Testing => 3
    case Waking(_) => 3
    case Sleeping => 4
    case Cycling => 4
  }

  /** The poll thread moves, by itself or because it is notified. */
  predicate Moves(s: State, e: Event)
    requires Enabled(s, e)
  {
    Apply(s, e).pc != s.pc
  }

  function CountMoves(s: State, es: seq<Event>): nat
    requires Legal(s, es)
    decreases |es|
  {
    if es == [] then 0
    else (if Moves(s, es[0]) then 1 else 0) + CountMoves(Apply(s, es[0]), es[1..])
  }

  /** Poke number p is covered by a later cycle, or the loop is over. */
  predicate Served(s: State, p: nat) {
    s.covered >= p || s.pc.Exited?
  }

  lemma UrgentStep(s: State, e: Event, p: nat)
    requires Inv(s) && Enabled(s, e) && p <= s.pokes && !Served(s, p)
    ensures var t := Apply(s, e);
            Served(t, p) || (Distance(t.pc) <= Distance(s.pc) && (Moves(s, e) ==> Distance(t.pc) < Distance(s.pc)))
  {
  }

  lemma ServedStays(s: State, e: Event, p: nat)
    requires Inv(s) && Enabled(s, e) && Served(s, p)
    ensures Served(Apply(s, e), p)
  {
  }

  /**
   No poke is lost: once pokePoll has been called, the poll thread starts a cycle that comes after
   the call, or leaves its loop, within four of its own moves, whatever the other threads do.
   */
  lemma {:induction false} PokeIsServed(s: State, es: seq<Event>, p: nat)
    requires Inv(s) && Legal(s, es) && p <= s.pokes
    requires !Served(s, p) ==> CountMoves(s, es) >= Distance(s.pc)
    ensures Served(Run(s, es), p)
    decreases |es|
  {
    if es != [] {
      StepKeeps(s, es[0]);
      if Served(s, p) {
        ServedStays(s, es[0], p);
      } else {
        UrgentStep(s, es[0], p);
      }
      PokeIsServed(Apply(s, es[0]), es[1..], p);
    }
  }

  /** After ShutDown the loop is over within four moves of the poll thread. */
  lemma {:induction false} ShutdownIsPrompt(s: State, es: seq<Event>)
    requires Inv(s) && Legal(s, es) && s.shuttingDown && CountMoves(s, es) >= Distance(s.pc)
    ensures Run(s, es).pc.Exited?
    decreases |es|
  {
    if es != [] {
      StepKeeps(s, es[0]);
      ShutdownIsPrompt(Apply(s, es[0]), es[1..]);
    }
  }

  /**
   None of those moves has to wait for a period to elapse: while something is wanted, the poll
   thread can move by itself, or is asleep and a notification is on its way.
   */
  lemma NoPeriodWaitedOut(es: seq<Event>)
    requires Legal(START, es)
    requires var s := Run(START, es); !s.pc.Exited? && (s.shuttingDown || s.covered < s.pokes)
    ensures var s := Run(START, es);
            exists e :: Enabled(s, e) && Moves(s, e) && !e.TimeOut? && !e.SpuriousWake?
  {
    RunKeeps(START, es);
    var s := Run(START, es);
    var e := match s.pc
      case Checking => Check(true)
      case Cycling => EndCycle(0)
      case Testing => Test
      case Sleeping => Notify
      case Waking(_) => Reacquire
      case WaitOver => FinishWait
      case Exited => Notify;
    assert Enabled(s, e) && Moves(s, e);
  }

  // ---------------------------------------------------------------- read off the events alone

  /** A cycle begins in the run. */
  predicate BeginsCycle(s: State, es: seq<Event>)
    requires Legal(s, es)
    decreases |es|
  {
    es != [] && ((es[0].Check? && Apply(s, es[0]).pc.Cycling?) || BeginsCycle(Apply(s, es[0]), es[1..]))
  }

  lemma {:induction false} CoveredStays(s: State, es: seq<Event>)
    requires Legal(s, es) && !BeginsCycle(s, es)
    ensures Run(s, es).covered == s.covered
    decreases |es|
  {
    if es != [] {
      CoveredStays(Apply(s, es[0]), es[1..]);
    }
  }

  /** After any pokePoll, four moves of the poll thread bring the beginning of a cycle or the end of the loop. */
  lemma PokeBringsCycle(before: seq<Event>, after: seq<Event>)
    requires Legal(START, before) && Enabled(Run(START, before), Poke)
    requires Legal(Apply(Run(START, before), Poke), after)
    requires CountMoves(Apply(Run(START, before), Poke), after) >= 4
    ensures var s := Apply(Run(START, before), Poke);
            BeginsCycle(s, after) || Run(s, after).pc.Exited?
  {
    RunKeeps(START, before);
    StepKeeps(Run(START, before), Poke);
    var s := Apply(Run(START, before), Poke);
    PokeIsServed(s, after, s.pokes);
    if !BeginsCycle(s, after) {
      CoveredStays(s, after);
    }
  }

  /** After the destructor's step, four moves of the poll thread end the loop. */
  lemma ShutDownEndsLoop(before: seq<Event>, after: seq<Event>)
    requires Legal(START, before) && Enabled(Run(START, before), ShutDown)
    requires Legal(Apply(Run(START, before), ShutDown), after)
    requires CountMoves(Apply(Run(START, before), ShutDown), after) >= 4
    ensures Run(Apply(Run(START, before), ShutDown), after).pc.Exited?
  {
    RunKeeps(START, before);
    StepKeeps(Run(START, before), ShutDown);
    ShutdownIsPrompt(Apply(Run(START, before), ShutDown), after);
  }

  // ---------------------------------------------------------------- the loop's own code

  /** The fields that pollThread, pokePoll and the destructor share, and pollThread's counter. */
  class PollThread {
    var shuttingDown: bool
    var pollPoke: bool
    var updateCount: Size
    const maxUpdatePeriodMs: Size
    ghost var rest: State

    /** The machine's state, with the fields that exist at run time taken from this object. */
    ghost function View(): State
      reads this
    {
      rest.(shuttingDown := shuttingDown, pollPoke := pollPoke, updateCount := updateCount)
    }

    constructor (maxPeriod: Size)
      ensures View() == START && maxUpdatePeriodMs == maxPeriod
    {
      shuttingDown, pollPoke, updateCount, maxUpdatePeriodMs := false, false, 0, maxPeriod;
      rest := START;
    }

    method KeepsPolling(rosOk: bool) returns (again: bool)
      requires rest.pc.Checking?
      modifies this`rest
      ensures View() == Apply(old(View()), Check(rosOk)) && (again <==> View().pc.Cycling?)
      ensures again <==> !shuttingDown && rosOk
    {
      again := !shuttingDown && rosOk;
      rest := Apply(View(), Check(rosOk));
    }

    /** The end of a cycle: how long to wait. */
    method NextPeriod() returns (updatePeriodMs: int)
      requires rest.pc.Cycling?
      modifies this`updateCount, this`rest
      ensures View() == Apply(old(View()), EndCycle(maxUpdatePeriodMs))
      ensures updatePeriodMs == View().period
    {
      ghost var before := View();
      updateCount := Increment(updateCount);
      updatePeriodMs := PeriodFor(updateCount);
      rest := Apply(before, EndCycle(maxUpdatePeriodMs));
    }

    /** The shift, and its bounds. */
    method PeriodFor(count: Size) returns (updatePeriodMs: int)
      ensures updatePeriodMs == Period(count, maxUpdatePeriodMs)
    {
      var shift := if count <= 32 then count else 32;
      var power := 1;
      for i := 0 to shift
        invariant power == Pow2(i)
      {
        power := power * 2;
      }
      assert shift == Min(count, 32);
      var bounded := if power <= maxUpdatePeriodMs then power else maxUpdatePeriodMs;
      updatePeriodMs := if bounded >= MIN_UPDATE_PERIOD_MS then bounded else MIN_UPDATE_PERIOD_MS;
    }

    method WaitReturned()
      requires rest.pc.WaitOver?
      modifies this
      ensures View() == Apply(old(View()), FinishWait)
    {
      rest := Apply(View(), FinishWait);
      if pollPoke {
        pollPoke := false;
        updateCount := 0;
      }
    }

    method PokePoll()
      requires MutexFree(rest)
      modifies this
      ensures View() == Apply(old(View()), Poke)
    {
      rest := Apply(View(), Poke);
      pollPoke := true;
    }

    method BeginShutdown()
      requires MutexFree(rest)
      modifies this
      ensures View() == Apply(old(View()), ShutDown)
    {
      rest := Apply(View(), ShutDown);
      shuttingDown := true;
    }
  }
}
