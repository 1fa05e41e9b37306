/** Ros1FoxgloveBridge: the shared responder of a client service call, and the deadline sweep. */
module ServiceCalls {
  import opened Wrappers
  import Directory = ServiceDirectory
  import Race = ServiceCallRace

  type Time = int
  /** Names a foxglove::ServiceResponder, which answers one client request. */
  type Responder = nat

  datatype ServiceRequest = ServiceRequest(serviceName: string, encoding: string)

  class PendingServiceCall {
    var responder: Option<Responder>
    const serviceName: string

    constructor (r: Responder, name: string)
      ensures responder == Some(r) && serviceName == name
    {
      responder := Some(r);
      serviceName := name;
    }

    /** swap(takenResponder, responder), under the call's own mutex. */
    method Take() returns (taken: Option<Responder>)
      modifies this
      ensures taken == old(responder) && responder == None
    {
      taken := responder;
      responder := None;
    }
  }

  type Entry = (Time, PendingServiceCall)

  function CallsOf(es: seq<Entry>): set<PendingServiceCall> {
    set i | 0 <= i < |es| :: es[i].1
  }

  /** The listed calls that still have their responder. */
  function Open(es: seq<Entry>): set<PendingServiceCall>
    reads CallsOf(es)
  {
    set c | c in CallsOf(es) && c.responder.Some?
  }

  /** Entries that the sweep keeps: not completed, and not due. */
  function Survivors(es: seq<Entry>, open: set<PendingServiceCall>, now: Time): seq<Entry> {
    if es == [] then []
    else
      var last := es[|es| - 1];
      Survivors(es[..|es| - 1], open, now) + if last.1 in open && last.0 > now then [last] else []
  }

  /** Calls that the sweep has to time out: not completed, and due. */
  function DueCalls(es: seq<Entry>, open: set<PendingServiceCall>, now: Time): (cs: seq<PendingServiceCall>)
    ensures forall i :: 0 <= i < |es| && es[i].1 in open && es[i].0 <= now ==> es[i].1 in cs
    ensures forall k :: 0 <= k < |cs| ==>
              cs[k] in open && exists i :: 0 <= i < |es| && es[i].1 == cs[k] && es[i].0 <= now
  {
    if es == [] then []
    else
      var last := es[|es| - 1];
      DueCalls(es[..|es| - 1], open, now) + if last.1 in open && last.0 <= now then [last.1] else []
  }

  /** What is sent for these calls when they are timed out, each once. */
  function Timeouts(cs: seq<PendingServiceCall>): seq<(Responder, Race.Answer)>
    reads cs
    requires forall c :: c in cs ==> c.responder.Some?
  {
    seq(|cs|, i requires 0 <= i < |cs| reads cs requires cs[i].responder.Some? => (cs[i].responder.value, Race.TimedOut))
  }

  ghost predicate Distinct(es: seq<Entry>) {
    forall i, j :: 0 <= i < j < |es| ==> es[i].1 != es[j].1
  }

  ghost predicate Different(cs: seq<PendingServiceCall>) {
    forall i, j :: 0 <= i < j < |cs| ==> cs[i] != cs[j]
  }

  lemma {:induction false} DueDistinct(es: seq<Entry>, open: set<PendingServiceCall>, now: Time)
    requires Distinct(es)
    ensures Different(DueCalls(es, open, now))
  {
    if es != [] {
      var k := |es| - 1;
      assert forall i, j :: 0 <= i < j < k ==> es[..k][i].1 != es[..k][j].1;
      DueDistinct(es[..k], open, now);
      OneMore(es, k, open, now);
      assert es[..k + 1] == es;
      LastIsNew(es, DueCalls(es[..k], open, now), k);
    }
  }

  /** The last call is not among those collected from the entries before. */
  lemma LastIsNew(es: seq<Entry>, cs: seq<PendingServiceCall>, k: nat)
    requires k < |es| && Distinct(es) && Different(cs)
    requires forall j :: 0 <= j < |cs| ==> exists i :: 0 <= i < k && es[..k][i].1 == cs[j]
    ensures Different(cs + [es[k].1])
  {
    forall j | 0 <= j < |cs| ensures cs[j] != es[k].1 {
      var i :| 0 <= i < k && es[..k][i].1 == cs[j];
      assert es[..k][i] == es[i];
    }
  }

  lemma OneMore(es: seq<Entry>, k: nat, open: set<PendingServiceCall>, now: Time)
    requires k < |es|
    ensures Survivors(es[..k + 1], open, now)
         == Survivors(es[..k], open, now) + if es[k].1 in open && es[k].0 > now then [es[k]] else []
    ensures DueCalls(es[..k + 1], open, now)
         == DueCalls(es[..k], open, now) + if es[k].1 in open && es[k].0 <= now then [es[k].1] else []
  {
    assert es[..k + 1][..k] == es[..k];
  }

  /** In a list without repeated calls, exactly the open entries that are due are collected. */
  lemma DueIff(es: seq<Entry>, open: set<PendingServiceCall>, now: Time, i: nat)
    requires Distinct(es) && i < |es|
    ensures es[i].1 in DueCalls(es, open, now) <==> es[i].1 in open && es[i].0 <= now
  {
    var cs := DueCalls(es, open, now);
    if es[i].1 in cs {
      var k :| 0 <= k < |cs| && cs[k] == es[i].1;
      var j :| 0 <= j < |es| && es[j].1 == cs[k] && es[j].0 <= now;
      assert j == i;
    }
  }

  /** The scan after it has seen so many entries: what the list and the expired calls are then. */
  ghost predicate Scanned(list: seq<Entry>, expired: seq<PendingServiceCall>, it: int, all: seq<Entry>, seen: int,
                          open: set<PendingServiceCall>, now: Time)
  {
    && 0 <= seen <= |all|
    && it == |Survivors(all[..seen], open, now)|
    && list == Survivors(all[..seen], open, now) + all[seen..]
    && expired == DueCalls(all[..seen], open, now)
  }

  lemma ScanStep(list: seq<Entry>, expired: seq<PendingServiceCall>, it: int, all: seq<Entry>, seen: int,
                 open: set<PendingServiceCall>, now: Time)
    requires Scanned(list, expired, it, all, seen, open, now) && it < |list|
    ensures seen < |all| && list[it] == all[seen]
    ensures var e := list[it];
            if e.1 !in open then Scanned(list[..it] + list[it + 1..], expired, it, all, seen + 1, open, now)
            else if e.0 <= now then Scanned(list[..it] + list[it + 1..], expired + [e.1], it, all, seen + 1, open, now)
            else Scanned(list, expired, it + 1, all, seen + 1, open, now)
  {
    var kept := Survivors(all[..seen], open, now);
    assert list[..it] == kept && list[it + 1..] == all[seen + 1..] && all[seen..] == [all[seen]] + all[seen + 1..];
    OneMore(all, seen, open, now);
  }

  class ServiceCallTable {
    var pendingServiceCalls: seq<Entry>
    /** What this object's threads have answered, in order. */
    var answered: seq<(Responder, Race.Answer)>

    constructor ()
      ensures pendingServiceCalls == [] && answered == []
    {
      pendingServiceCalls, answered := [], [];
    }

    /** Answers the request at once, or lists it with its deadline for a worker to run. */
    method HandleServiceRequest(services: map<string, Directory.ServiceDetails>, request: ServiceRequest, responder: Responder,
                                now: Time, timeout: nat)
      returns (call: PendingServiceCall?)
      modifies this
      ensures call == null <==> (request.serviceName !in services || request.encoding != "ros1"
                                 || services[request.serviceName].md5sum == "")
      ensures call != null <==> Directory.Callable(services, request.serviceName) && request.encoding == "ros1"
      ensures call == null ==>
                pendingServiceCalls == old(pendingServiceCalls) && answered == old(answered) + [(responder, Race.Rejected)]
      ensures call != null ==>
                && answered == old(answered)
                && fresh(call) && call.responder == Some(responder) && call.serviceName == request.serviceName
                && pendingServiceCalls == old(pendingServiceCalls) + [(now + timeout, call)]
      ensures old(Distinct(pendingServiceCalls)) ==> Distinct(pendingServiceCalls)
    {
      if request.serviceName !in services {
        answered := answered + [(responder, Race.Rejected)];
        return null;
      }
      var details := services[request.serviceName];
      if request.encoding != "ros1" {
        answered := answered + [(responder, Race.Rejected)];
        return null;
      }
      if details.md5sum == "" {
        answered := answered + [(responder, Race.Rejected)];
        return null;
      }
      var pending := new PendingServiceCall(responder, request.serviceName);
      pendingServiceCalls := pendingServiceCalls + [(now + timeout, pending)];
      call := pending;
    }

    /**
     The end of a worker, after a call that has succeeded or not: it answers, with the result or an
     error, only if it is the one that took the responder.
     */
    method WorkerReturns(call: PendingServiceCall, ok: bool) returns (responded: bool)
      modifies this`answered, call
      ensures responded == old(call.responder).Some? && call.responder == None
      ensures responded && ok ==> answered == old(answered) + [(old(call.responder).value, Race.Result)]
      ensures responded && !ok ==> answered == old(answered) + [(old(call.responder).value, Race.CallFailed)]
      ensures !responded ==> answered == old(answered)
    {
      var taken := call.Take();
      responded := taken.Some?;
      if taken.Some? {
        if ok {
          answered := answered + [(taken.value, Race.Result)];
        } else {
          answered := answered + [(taken.value, Race.CallFailed)];
        }
      }
    }

    /** The scan, which erases from the list while it iterates. */
    method ScanPending(now: Time) returns (expired: seq<PendingServiceCall>)
      modifies this`pendingServiceCalls
      ensures pendingServiceCalls == Survivors(old(pendingServiceCalls), old(Open(pendingServiceCalls)), now)
      ensures expired == DueCalls(old(pendingServiceCalls), old(Open(pendingServiceCalls)), now)
    {
      ghost var all, open := pendingServiceCalls, Open(pendingServiceCalls);
      expired := [];
      var it := 0;
      ghost var seen := 0;
      while it < |pendingServiceCalls|
        invariant Scanned(pendingServiceCalls, expired, it, all, seen, open, now)
        decreases |all| - seen
      {
        ScanStep(pendingServiceCalls, expired, it, all, seen, open, now);
        var entry := pendingServiceCalls[it];
        var completed := entry.1.responder.None?;
        assert entry == all[seen] && entry.1 in CallsOf(all);
        assert completed <==> entry.1 !in open;
        if completed {
          pendingServiceCalls := pendingServiceCalls[..it] + pendingServiceCalls[it + 1..];
        } else if entry.0 <= now {
          expired := expired + [entry.1];
          pendingServiceCalls := pendingServiceCalls[..it] + pendingServiceCalls[it + 1..];
        } else {
          it := it + 1;
        }
        seen := seen + 1;
      }
      assert all[..seen] == all;
    }

    /** Answers every expired call that still has its responder. */
    method TimeOut(expired: seq<PendingServiceCall>)
      requires Different(expired)
      requires forall c :: c in expired ==> c.responder.Some?
      modifies this`answered, expired
      ensures answered == old(answered) + old(Timeouts(expired))
      ensures forall c :: c in expired ==> c.responder == None
    {
      ghost var before := Timeouts(expired);
      for i := 0 to |expired|
        invariant answered == old(answered) + before[..i]
        invariant forall j :: 0 <= j < i ==> expired[j].responder == None
        invariant forall j :: i <= j < |expired| ==> expired[j].responder == old(expired[j].responder)
      {
        var taken := expired[i].Take();
        assert before[..i + 1] == before[..i] + [before[i]];
        if taken.Some? {
          answered := answered + [(taken.value, Race.TimedOut)];
        }
      }
      assert before[..|expired|] == before;
    }

    /**
     Afterwards the list is the survivors, and exactly the calls that were due have lost their
     responder, each answered with one timeout. (No worker runs in between here; ServiceCallRace
     has the races.)
     */
    method SweepExpiredServiceCalls(now: Time)
      requires Distinct(pendingServiceCalls)
      modifies this, CallsOf(pendingServiceCalls)
      ensures pendingServiceCalls == Survivors(old(pendingServiceCalls), old(Open(pendingServiceCalls)), now)
      ensures answered == old(answered)
                + old(Timeouts(DueCalls(pendingServiceCalls, Open(pendingServiceCalls), now)))
      ensures forall i :: 0 <= i < |old(pendingServiceCalls)| ==>
                var e := old(pendingServiceCalls)[i];
                e.1.responder == if e.0 <= now then None else old(e.1.responder)
    {
      ghost var all, open := pendingServiceCalls, Open(pendingServiceCalls);
      DueDistinct(all, open, now);
      var expired := ScanPending(now);
      assert forall c :: c in expired ==> c in CallsOf(all);
      TimeOut(expired);
      forall i | 0 <= i < |all| ensures all[i].1.responder == if all[i].0 <= now then None else old(all[i].1.responder) {
        DueIff(all, open, now, i);
      }
    }
  }
}
