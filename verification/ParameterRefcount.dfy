/** Parameter subscriptions of two transports, counted per name, and what is forwarded of them. */
module ParameterRefcount {
  import opened Sequences
  import opened ParameterQueue

  /** One name of a subscribe (`up`) or unsubscribe call. */
  datatype Change = Change(name: string, up: bool, from: Transport)

  function ChangesFor(names: seq<string>, up: bool, from: Transport): seq<Change> {
    seq(|names|, i requires 0 <= i < |names| => Change(names[i], up, from))
  }

  function Changes(op: ParameterOp): seq<Change> {
    match op
    case SubscribeParams(names, from) => ChangesFor(names, true, from)
    case UnsubscribeParams(names, from) => ChangesFor(names, false, from)
    case _ => []
  }

  function AllChanges(ops: seq<ParameterOp>): seq<Change> {
    if ops == [] then [] else AllChanges(ops[..|ops| - 1]) + Changes(ops[|ops| - 1])
  }

  function Sign(c: Change): int {
    if c.up then 1 else -1
  }

  /** Subscriptions minus unsubscriptions of a name. */
  function Net(cs: seq<Change>, name: string): int {
    if cs == [] then 0
    else Net(cs[..|cs| - 1], name) + if cs[|cs| - 1].name == name then Sign(cs[|cs| - 1]) else 0
  }

  /** The same for the calls of one transport. */
  function NetFrom(cs: seq<Change>, name: string, from: Transport): int {
    if cs == [] then 0
    else NetFrom(cs[..|cs| - 1], name, from)
         + if cs[|cs| - 1].name == name && cs[|cs| - 1].from == from then Sign(cs[|cs| - 1]) else 0
  }

  type Counts = map<string, int>

  /** ++_paramSubscriberCount[name] */
  function Up(count: Counts, name: string): Counts {
    count[name := (if name in count then count[name] else 0) + 1]
  }

  /** A count that drops to zero is erased; an untracked name is skipped. */
  function Down(count: Counts, name: string): Counts {
    if name !in count then count
    else if count[name] - 1 == 0 then count - {name}
    else count[name := count[name] - 1]
  }

  function Counted(count: Counts, c: Change): Counts {
    if c.up then Up(count, c.name) else Down(count, c.name)
  }

  /** The subscriber counts after these changes. */
  function Tally(cs: seq<Change>): Counts {
    if cs == [] then map[] else Counted(Tally(cs[..|cs| - 1]), cs[|cs| - 1])
  }

  /** The change is passed on to the backend: the first subscriber came, or the last one left. */
  predicate Forwards(count: Counts, c: Change) {
    if c.up then c.name !in count || count[c.name] + 1 == 1 else c.name in count && count[c.name] - 1 == 0
  }

  function Forwarded(cs: seq<Change>): seq<Change> {
    if cs == [] then []
    else
      var before := cs[..|cs| - 1];
      Forwarded(before) + if Forwards(Tally(before), cs[|cs| - 1]) then [cs[|cs| - 1]] else []
  }

  // ---------------------------------------------------------------- counts are exact

  ghost predicate Positive(count: Counts) {
    forall n :: n in count ==> count[n] >= 1
  }

  lemma {:induction false} TallyPositive(cs: seq<Change>)
    ensures Positive(Tally(cs))
  {
    if cs != [] {
      TallyPositive(cs[..|cs| - 1]);
    }
  }

  /** The k-th change is an unsubscribe for a name that is not counted: the warning branch. */
  predicate Untracked(cs: seq<Change>, k: int) {
    0 <= k < |cs| && !cs[k].up && cs[k].name !in Tally(cs[..k])
  }

  ghost predicate NeverNegative(cs: seq<Change>) {
    forall k, n :: 0 <= k <= |cs| ==> Net(cs[..k], n) >= 0
  }

  /** The counts are the net numbers of subscriptions. */
  ghost predicate Exact(cs: seq<Change>) {
    && (forall n :: n in Tally(cs) <==> Net(cs, n) > 0)
    && (forall n :: n in Tally(cs) ==> Tally(cs)[n] == Net(cs, n))
    && (forall n :: Net(cs, n) >= 0)
  }

  lemma {:induction false} TrackedIsExact(cs: seq<Change>)
    requires forall k :: !Untracked(cs, k)
    ensures Exact(cs)
  {
    if cs != [] {
      var before := cs[..|cs| - 1];
      forall k ensures !Untracked(before, k) {
        if 0 <= k < |before| {
          assert before[..k] == cs[..k];
          assert !Untracked(cs, k);
        }
      }
      TrackedIsExact(before);
      assert !Untracked(cs, |cs| - 1);
    }
  }

  lemma {:induction false} NonNegativeIsTracked(cs: seq<Change>, k: int)
    requires NeverNegative(cs)
    ensures !Untracked(cs, k)
    decreases |cs|
  {
    if 0 <= k < |cs| {
      var before := cs[..k];
      forall j ensures !Untracked(before, j) {
        NonNegativeBefore(cs, k);
        NonNegativeIsTracked(before, j);
      }
      TrackedIsExact(before);
      assert cs[..k + 1][..k] == before;
      assert Net(cs[..k + 1], cs[k].name) >= 0;
    }
  }

  lemma NonNegativeBefore(cs: seq<Change>, k: nat)
    requires NeverNegative(cs) && k <= |cs|
    ensures NeverNegative(cs[..k])
  {
    forall j, n | 0 <= j <= k ensures Net(cs[..k][..j], n) >= 0 {
      assert cs[..k][..j] == cs[..j];
    }
  }

  lemma TrackedBefore(cs: seq<Change>, k: nat)
    requires (forall j :: !Untracked(cs, j)) && k <= |cs|
    ensures forall j :: !Untracked(cs[..k], j)
  {
    forall j ensures !Untracked(cs[..k], j) {
      if 0 <= j < k {
        assert cs[..k][..j] == cs[..j];
        assert !Untracked(cs, j);
      }
    }
  }

  /**
   The warning about an untracked parameter is reached exactly if, for some name, some prefix of
   the calls has more unsubscriptions than subscriptions; otherwise the counts are exact throughout.
   */
  lemma UntrackedIff(cs: seq<Change>)
    ensures (forall k :: !Untracked(cs, k)) <==> NeverNegative(cs)
    ensures NeverNegative(cs) ==> Exact(cs)
  {
    if NeverNegative(cs) {
      forall k { NonNegativeIsTracked(cs, k); }
      TrackedIsExact(cs);
    }
    if forall k :: !Untracked(cs, k) {
      forall k, n | 0 <= k <= |cs| ensures Net(cs[..k], n) >= 0 {
        TrackedBefore(cs, k);
        TrackedIsExact(cs[..k]);
      }
    }
  }

  // ---------------------------------------------------------------- two transports

  /** Each transport fires subscribe and unsubscribe alternately for a name, subscribe first. */
  ghost predicate Alternates(cs: seq<Change>) {
    forall k, n, t :: 0 <= k <= |cs| ==> 0 <= NetFrom(cs[..k], n, t) <= 1
  }

  lemma {:induction false} NetSplits(cs: seq<Change>, name: string)
    ensures Net(cs, name) == NetFrom(cs, name, WebSocket) + NetFrom(cs, name, Gateway)
  {
    if cs != [] {
      NetSplits(cs[..|cs| - 1], name);
    }
  }

  lemma AlternatingIsNonNegative(cs: seq<Change>)
    requires Alternates(cs)
    ensures NeverNegative(cs)
  {
    forall k, n | 0 <= k <= |cs| ensures Net(cs[..k], n) >= 0 {
      NetSplits(cs[..k], n);
    }
  }

  lemma ChangesMore(ops: seq<ParameterOp>, op: ParameterOp)
    ensures AllChanges(ops + [op]) == AllChanges(ops) + Changes(op)
  {
    assert (ops + [op])[..|ops|] == ops;
  }

  lemma {:induction false} ChangesAppend(xs: seq<ParameterOp>, ys: seq<ParameterOp>)
    ensures AllChanges(xs + ys) == AllChanges(xs) + AllChanges(ys)
  {
    if ys == [] {
      assert xs + ys == xs;
    } else {
      var k := |ys| - 1;
      assert (xs + ys)[..|xs + ys| - 1] == xs + ys[..k];
      ChangesAppend(xs, ys[..k]);
      Associative(AllChanges(xs), AllChanges(ys[..k]), Changes(ys[k]));
    }
  }

  lemma {:induction false} NetAppend(xs: seq<Change>, ys: seq<Change>, name: string)
    ensures Net(xs + ys, name) == Net(xs, name) + Net(ys, name)
  {
    if ys == [] {
      assert xs + ys == xs;
    } else {
      assert (xs + ys)[..|xs + ys| - 1] == xs + ys[..|ys| - 1];
      NetAppend(xs, ys[..|ys| - 1], name);
    }
  }

  function CountOf(count: Counts, name: string): int {
    if name in count then count[name] else 0
  }

  /** Subscriptions minus unsubscriptions of a name in the operations of one transport. */
  function Balance(ops: seq<ParameterOp>, name: string, from: Transport): int {
    if ops == [] then 0
    else
      var op := ops[|ops| - 1];
      Balance(ops[..|ops| - 1], name, from)
      + if op.SubscribeParams? && op.from == from then multiset(op.names)[name] as int
        else if op.UnsubscribeParams? && op.from == from then -(multiset(op.names)[name] as int)
        else 0
  }

  /** Whether a transport has a name subscribed after these operations. */
  predicate SubscribedBy(ops: seq<ParameterOp>, name: string, from: Transport) {
    Balance(ops, name, from) == 1
  }

  lemma {:induction false} NetFromAppend(xs: seq<Change>, ys: seq<Change>, name: string, from: Transport)
    ensures NetFrom(xs + ys, name, from) == NetFrom(xs, name, from) + NetFrom(ys, name, from)
  {
    if ys == [] {
      assert xs + ys == xs;
    } else {
      assert (xs + ys)[..|xs + ys| - 1] == xs + ys[..|ys| - 1];
      NetFromAppend(xs, ys[..|ys| - 1], name, from);
    }
  }

  lemma {:induction false} NetFromOfNames(names: seq<string>, up: bool, caller: Transport, name: string, from: Transport)
    ensures var m: int := multiset(names)[name];
            NetFrom(ChangesFor(names, up, caller), name, from) == if caller != from then 0 else if up then m else -m
  {
    if names != [] {
      var k := |names| - 1;
      NetFromOfNames(names[..k], up, caller, name, from);
      assert names == names[..k] + [names[k]];
      assert ChangesFor(names, up, caller) == ChangesFor(names[..k], up, caller) + [Change(names[k], up, caller)];
      NetFromAppend(ChangesFor(names[..k], up, caller), [Change(names[k], up, caller)], name, from);
      assert [Change(names[k], up, caller)][..0] == [];
    }
  }

  /** The changes that operations make balance as the operations do. */
  lemma {:induction false} BalanceIsNet(ops: seq<ParameterOp>, name: string, from: Transport)
    ensures NetFrom(AllChanges(ops), name, from) == Balance(ops, name, from)
  {
    if ops != [] {
      var k := |ops| - 1;
      BalanceIsNet(ops[..k], name, from);
      NetFromAppend(AllChanges(ops[..k]), Changes(ops[k]), name, from);
      match ops[k] {
        case SubscribeParams(names, caller) => NetFromOfNames(names, true, caller, name, from);
        case UnsubscribeParams(names, caller) => NetFromOfNames(names, false, caller, name, from);
        case _ =>
      }
    }
  }

  /** The operations that come after the executed ones: in hand, then queued, then drained. */
  function Ahead(s: State): seq<ParameterOp> {
    InHand(s.worker) + s.queue + s.drained
  }

  /** The same on plain lists: some operations done, some ahead, some beyond. */
  lemma CountsTransports(done: seq<ParameterOp>, ahead: seq<ParameterOp>, beyond: seq<ParameterOp>, name: string)
    requires Alternates(AllChanges(done + ahead + beyond))
    ensures CountOf(Tally(AllChanges(done)), name) + Net(AllChanges(ahead), name)
         == (if SubscribedBy(done + ahead, name, WebSocket) then 1 else 0)
          + (if SubscribedBy(done + ahead, name, Gateway) then 1 else 0)
  {
    ChangesAppend(done, ahead);
    ChangesAppend(done + ahead, beyond);
    var all, first, now := AllChanges(done + ahead + beyond), AllChanges(done), AllChanges(done + ahead);
    CountIsNet(all, first, name);
    NetAppend(first, AllChanges(ahead), name);
    NetIsTransports(all, now, name);
    BalanceIsNet(done + ahead, name, WebSocket);
    BalanceIsNet(done + ahead, name, Gateway);
  }

  lemma CountIsNet(all: seq<Change>, first: seq<Change>, name: string)
    requires Alternates(all) && first <= all
    ensures CountOf(Tally(first), name) == Net(first, name)
  {
    assert all[..|first|] == first;
    AlternatingIsNonNegative(all);
    NonNegativeBefore(all, |first|);
    UntrackedIff(first);
  }

  lemma NetIsTransports(all: seq<Change>, now: seq<Change>, name: string)
    requires Alternates(all) && now <= all
    ensures 0 <= NetFrom(now, name, WebSocket) <= 1 && 0 <= NetFrom(now, name, Gateway) <= 1
    ensures Net(now, name) == NetFrom(now, name, WebSocket) + NetFrom(now, name, Gateway)
  {
    assert all[..|now|] == now;
    NetSplits(now, name);
  }

  /**
   In every run in which each transport alternates per name: the worker never meets an untracked
   name, its counts are at least 1, and for every name and every prefix of the operations ahead,
   the count plus the net effect of that prefix is the number of transports that have the name
   subscribed after it, so it is 0, 1 or 2.
   */
  lemma TwoTransports(s: State, k: nat, name: string)
    requires Reachable(s) && Alternates(AllChanges(s.accepted)) && k <= |Ahead(s)|
    ensures var count := Tally(AllChanges(s.executed));
            var prefix := s.executed + Ahead(s)[..k];
            && Positive(count)
            && (forall j :: !Untracked(AllChanges(s.accepted), j))
            && CountOf(count, name) + Net(AllChanges(Ahead(s)[..k]), name)
               == (if SubscribedBy(prefix, name, WebSocket) then 1 else 0)
                + (if SubscribedBy(prefix, name, Gateway) then 1 else 0)
  {
    var es :| ReachedBy(s, es);
    ParameterQueue.RunKeeps(START, es);
    AlternatingIsNonNegative(AllChanges(s.accepted));
    UntrackedIff(AllChanges(s.accepted));
    TallyPositive(AllChanges(s.executed));
    AcceptedSplits(s, k);
    CountsTransports(s.executed, Ahead(s)[..k], Ahead(s)[k..], name);
  }

  lemma AcceptedSplits(s: State, k: nat)
    requires InOrder(s) && k <= |Ahead(s)|
    ensures s.accepted == s.executed + Ahead(s)[..k] + Ahead(s)[k..]
  {
    assert s.accepted == s.executed + Ahead(s);
  }

  // ---------------------------------------------------------------- what the backend sees

  lemma ForwardedMore(cs: seq<Change>, c: Change)
    ensures Tally(cs + [c]) == Counted(Tally(cs), c)
    ensures var fs := Forwarded(cs + [c]);
            if Forwards(Tally(cs), c) then fs != [] && fs[..|fs| - 1] == Forwarded(cs) && fs[|fs| - 1] == c
            else fs == Forwarded(cs)
  {
    assert (cs + [c])[..|cs|] == cs;
  }

  lemma ForwardedNetStep(before: seq<Change>, last: Change, name: string)
    requires Net(Forwarded(before), name) == if name in Tally(before) then 1 else 0
    ensures Net(Forwarded(before + [last]), name) == if name in Tally(before + [last]) then 1 else 0
  {
    TallyPositive(before);
    ForwardedMore(before, last);
    if Forwards(Tally(before), last) {
      assert Forwarded(before + [last]) == Forwarded(before) + [last];
      NetMore(Forwarded(before), last, name);
    } else {
      UnforwardedAgrees(Tally(before), last, name);
    }
  }

  /** Whatever is called: forwarded calls leave exactly the counted names subscribed. */
  lemma {:induction false} ForwardedNet(cs: seq<Change>, name: string)
    ensures Net(Forwarded(cs), name) == if name in Tally(cs) then 1 else 0
  {
    if cs != [] {
      var before, last := cs[..|cs| - 1], cs[|cs| - 1];
      ForwardedNet(before, name);
      ForwardedNetStep(before, last, name);
      assert cs == before + [last];
    }
  }

  lemma NetMore(cs: seq<Change>, c: Change, name: string)
    ensures Net(cs + [c], name) == Net(cs, name) + if c.name == name then Sign(c) else 0
  {
    assert (cs + [c])[..|cs|] == cs;
  }

  lemma {:induction false} ForwardedPrefix(cs: seq<Change>, j: nat) returns (k: nat)
    requires j <= |Forwarded(cs)|
    ensures k <= |cs| && Forwarded(cs)[..j] == Forwarded(cs[..k])
  {
    if cs == [] {
      k := 0;
    } else {
      var before := cs[..|cs| - 1];
      if j <= |Forwarded(before)| {
        k := ForwardedPrefix(before, j);
        assert Forwarded(cs)[..j] == Forwarded(before)[..j];
        assert before[..k] == cs[..k];
      } else {
        k := |cs|;
        assert cs[..k] == cs && Forwarded(cs)[..j] == Forwarded(cs);
      }
    }
  }

  /**
   For any calls at all, repeated and unmatched names included, what is forwarded for a name
   alternates between subscribe and unsubscribe and starts with subscribe.
   */
  lemma ForwardedAlternates(cs: seq<Change>, name: string, j: nat)
    requires j <= |Forwarded(cs)|
    ensures 0 <= Net(Forwarded(cs)[..j], name) <= 1
  {
    var k := ForwardedPrefix(cs, j);
    ForwardedNet(cs[..k], name);
  }

  /** One accepted call of the master, as the backend records it. */
  function Recorded(subscribed: set<string>, f: Change, allowed: string -> bool): set<string> {
    if !f.up then subscribed - {f.name}
    else if allowed(f.name) then subscribed + {f.name}
    else subscribed
  }

  /** The backend's set after forwarded calls, when the master accepts every call. */
  function Backed(fs: seq<Change>, allowed: string -> bool): set<string> {
    if fs == [] then {} else Recorded(Backed(fs[..|fs| - 1], allowed), fs[|fs| - 1], allowed)
  }

  ghost predicate AgreesOn(cs: seq<Change>, allowed: string -> bool, name: string) {
    name in Backed(Forwarded(cs), allowed) <==> name in Tally(cs) && allowed(name)
  }

  lemma {:induction false} BackendAgreesOn(cs: seq<Change>, allowed: string -> bool, name: string)
    ensures AgreesOn(cs, allowed, name)
  {
    if cs != [] {
      var before, last := cs[..|cs| - 1], cs[|cs| - 1];
      BackendAgreesOn(before, allowed, name);
      AgreesStep(before, last, allowed, name);
      assert cs == before + [last];
    }
  }

  lemma AgreesStep(before: seq<Change>, last: Change, allowed: string -> bool, name: string)
    requires AgreesOn(before, allowed, name)
    ensures AgreesOn(before + [last], allowed, name)
  {
    TallyPositive(before);
    ForwardedMore(before, last);
    if Forwards(Tally(before), last) {
      BackedOne(Forwarded(before), last, allowed);
      assert Forwarded(before + [last]) == Forwarded(before) + [last];
      RecordedAgrees(Tally(before), last, Backed(Forwarded(before), allowed), allowed, name);
    } else {
      UnforwardedAgrees(Tally(before), last, name);
    }
  }

  lemma BackedOne(fs: seq<Change>, f: Change, allowed: string -> bool)
    ensures Backed(fs + [f], allowed) == Recorded(Backed(fs, allowed), f, allowed)
  {
    assert (fs + [f])[..|fs|] == fs;
  }

  lemma RecordedAgrees(count: Counts, c: Change, subscribed: set<string>, allowed: string -> bool, name: string)
    requires Positive(count) && Forwards(count, c)
    requires name in subscribed <==> name in count && allowed(name)
    ensures name in Recorded(subscribed, c, allowed) <==> name in Counted(count, c) && allowed(name)
  {
  }

  lemma UnforwardedAgrees(count: Counts, c: Change, name: string)
    requires Positive(count) && !Forwards(count, c)
    ensures name in Counted(count, c) <==> name in count
  {
  }

  /** With a reliable master the backend has exactly the counted names that it may subscribe to. */
  lemma BackendAgrees(cs: seq<Change>, allowed: string -> bool)
    ensures Backed(Forwarded(cs), allowed) == set n | n in Tally(cs) && allowed(n)
  {
    var backed, counted := Backed(Forwarded(cs), allowed), Tally(cs);
    forall n ensures n in backed <==> n in counted && allowed(n) {
      BackendAgreesOn(cs, allowed, n);
    }
  }
}
