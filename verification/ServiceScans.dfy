/** The undisturbed scan of the pending service calls is a special case of the racing one. */
module ServiceScans {
  import opened ServiceCalls
  import Race = ServiceCallRace

  /** Two names for the same entries. */
  ghost predicate SameEntries(rs: seq<Race.Entry>, es: seq<Entry>, id: PendingServiceCall -> Race.CallId) {
    |rs| == |es| && forall i :: 0 <= i < |es| ==> rs[i] == Race.Entry(es[i].0, id(es[i].1))
  }

  ghost predicate SameCalls(ids: seq<Race.CallId>, cs: seq<PendingServiceCall>, id: PendingServiceCall -> Race.CallId) {
    |ids| == |cs| && forall i :: 0 <= i < |cs| ==> ids[i] == id(cs[i])
  }

  /** Each inspection sees the slot as it was when the scan began. */
  ghost predicate SeenAtStart(seen: seq<bool>, es: seq<Entry>, open: set<PendingServiceCall>) {
    |seen| == |es| && forall i :: 0 <= i < |es| ==> (seen[i] <==> es[i].1 in open)
  }

  lemma {:induction false} SurvivorsAgree(all: seq<Race.Entry>, seen: seq<bool>, es: seq<Entry>, n: nat,
                                          open: set<PendingServiceCall>, now: Time, id: PendingServiceCall -> Race.CallId)
    requires n <= |es| && SameEntries(all, es, id) && SeenAtStart(seen, es, open)
    ensures SameEntries(Race.Kept(all, seen[..n], now), Survivors(es[..n], open, now), id)
  {
    if n > 0 {
      var k := n - 1;
      SurvivorsAgree(all, seen, es, k, open, now, id);
      assert seen[..n] == seen[..k] + [seen[k]];
      Race.OneMoreSeen(all, seen[..k], now, seen[k]);
      OneMore(es, k, open, now);
    }
  }

  lemma {:induction false} DueAgree(all: seq<Race.Entry>, seen: seq<bool>, es: seq<Entry>, n: nat,
                                    open: set<PendingServiceCall>, now: Time, id: PendingServiceCall -> Race.CallId)
    requires n <= |es| && SameEntries(all, es, id) && SeenAtStart(seen, es, open)
    ensures SameCalls(Race.Overdue(all, seen[..n], now), DueCalls(es[..n], open, now), id)
  {
    if n > 0 {
      var k := n - 1;
      DueAgree(all, seen, es, k, open, now, id);
      OneMore(es, k, open, now);
      OneMoreDue(all, seen, k, now, DueCalls(es[..k], open, now), es[k], id);
    }
  }

  lemma OneMoreDue(all: seq<Race.Entry>, seen: seq<bool>, k: nat, now: Time, cs: seq<PendingServiceCall>, e: Entry,
                   id: PendingServiceCall -> Race.CallId)
    requires k < |seen| == |all| && all[k] == Race.Entry(e.0, id(e.1))
    requires SameCalls(Race.Overdue(all, seen[..k], now), cs, id)
    ensures SameCalls(Race.Overdue(all, seen[..k + 1], now), cs + if seen[k] && e.0 <= now then [e.1] else [], id)
  {
    assert seen[..k + 1] == seen[..k] + [seen[k]];
    Race.OneMoreSeen(all, seen[..k], now, seen[k]);
  }

  /** The scan of the class keeps and collects what the racing one does if no slot is emptied meanwhile. */
  lemma ScansAgree(all: seq<Race.Entry>, seen: seq<bool>, es: seq<Entry>, open: set<PendingServiceCall>, now: Time,
                   id: PendingServiceCall -> Race.CallId)
    requires SameEntries(all, es, id) && SeenAtStart(seen, es, open)
    ensures SameEntries(Race.Kept(all, seen, now), Survivors(es, open, now), id)
    ensures SameCalls(Race.Overdue(all, seen, now), DueCalls(es, open, now), id)
  {
    SurvivorsAgree(all, seen, es, |es|, open, now, id);
    DueAgree(all, seen, es, |es|, open, now, id);
    assert es[..|es|] == es && seen[..|es|] == seen;
  }
}
