/**
 Service advertisement. Only the poll thread changes `_advertisedServices` and the SDK's service
 registrations; other threads may look between any two of its steps.
 */
module ServiceDirectory {
  datatype ServiceDetails = ServiceDetails(typeName: string, md5sum: string)

  /** What the outside decides during one update. */
  datatype Oracle = Oracle(
    types: map<string, string>,        // probed service types; a service that is missing fails its probe
    descriptions: map<string, string>, // md5 sums of the types with a known definition
    webSocketAccepts: set<string>,
    gatewayAccepts: set<string>,
    webSocketRemoves: set<string>,     // a transport may refuse to remove a service
    gatewayRemoves: set<string>
  )

  /** What another thread can see: the bridge's map, and the services each transport offers. */
  datatype Snapshot = Snapshot(advertised: set<string>, webSocket: set<string>, gateway: set<string>)

  /** Requests for this service can be passed on: it is advertised, and its type information is there. */
  predicate Callable(services: map<string, ServiceDetails>, name: string) {
    name in services && services[name].md5sum != ""
  }

  /** What was probed, and the sum of its type's description if there is one. */
  predicate Describes(o: Oracle, name: string, details: ServiceDetails)
    requires name in o.types
  {
    && details.typeName == o.types[name]
    && (details.typeName in o.descriptions ==> details.md5sum == o.descriptions[details.typeName])
    && (details.typeName !in o.descriptions ==> details.md5sum == "")
  }

  /** The services advertised since that the gateway has taken as well. */
  function AtGateway(before: set<string>, now: set<string>, o: Oracle, hasGateway: bool): set<string> {
    set n | n in now && n !in before && hasGateway && n in o.gatewayAccepts
  }

  /** The map has kept what it had, and gained those of the names that were probed and accepted. */
  ghost predicate Grown(before: map<string, ServiceDetails>, now: map<string, ServiceDetails>, names: seq<string>, o: Oracle) {
    && (forall n :: n in now <==> n in before || (n in names && n in o.types && n in o.webSocketAccepts))
    && (forall n :: n in before ==> now[n] == before[n])
    && (forall n :: n in now && n !in before ==> Describes(o, n, now[n]))
  }

  /** One more name has been dealt with. */
  lemma GrownMore(start: map<string, ServiceDetails>, before: map<string, ServiceDetails>, now: map<string, ServiceDetails>,
                  names: seq<string>, name: string, o: Oracle, hasGateway: bool)
    requires Grown(start, before, names, o)
    requires name in before || name !in o.types || name !in o.webSocketAccepts ==> now == before
    requires name !in before && name in o.types && name in o.webSocketAccepts ==>
               name in now && Describes(o, name, now[name]) && now == before[name := now[name]]
    ensures Grown(start, now, names + [name], o)
    ensures AtGateway(start.Keys, now.Keys, o, hasGateway)
         == AtGateway(start.Keys, before.Keys, o, hasGateway)
            + if name !in before && name in o.types && name in o.webSocketAccepts && hasGateway && name in o.gatewayAccepts
              then {name} else {}
  {
  }

  /** Every offered service is known to the bridge, except those that are being removed or could not be. */
  ghost predicate Known(view: Snapshot, excused: set<string>) {
    view.webSocket <= view.advertised + excused && view.gateway <= view.advertised + excused
  }

  ghost predicate OneOff(x: set<string>, y: set<string>) {
    exists n :: y == x + {n} || y == x - {n}
  }

  lemma OneAdded(x: set<string>, n: string)
    ensures OneOff(x, x + {n})
  {
  }

  lemma OneRemoved(x: set<string>, n: string)
    ensures OneOff(x, x - {n})
  {
  }

  /** One critical section or one SDK call: one of the three changes, a transport by one service. */
  ghost predicate Atomic(a: Snapshot, b: Snapshot) {
    || b == a.(advertised := b.advertised)
    || (b == a.(webSocket := b.webSocket) && OneOff(a.webSocket, b.webSocket))
    || (b == a.(gateway := b.gateway) && OneOff(a.gateway, b.gateway))
  }

  /** A view, with the batch that was being removed and the services whose removal had failed. */
  datatype Sight = Sight(view: Snapshot, excused: set<string>)

  /** What was recorded since: the sights follow each other step by step and show no stray service. */
  ghost predicate Faithful(before: seq<Sight>, seen: seq<Sight>) {
    && before <= seen
    && forall i :: |before| <= i < |seen| ==>
         Known(seen[i].view, seen[i].excused) && (i > 0 ==> Atomic(seen[i - 1].view, seen[i].view))
  }

  lemma FaithfulThen(a: seq<Sight>, b: seq<Sight>, c: seq<Sight>)
    requires Faithful(a, b) && Faithful(b, c)
    ensures Faithful(a, c)
  {
  }

  /** What is still offered after these removals, and what of it was asked to be removed. */
  function Offered(services: set<string>, asked: set<string>, removable: set<string>): set<string> {
    services - (asked * removable)
  }

  lemma OfferedMore(services: set<string>, asked: set<string>, removable: set<string>, n: string)
    ensures Offered(services, asked + {n}, removable)
         == Offered(services, asked, removable) - if n in removable then {n} else {}
  {
  }

  class ServiceDirectory {
    var advertisedServices: map<string, ServiceDetails>
    var webSocketServices: set<string>
    var gatewayServices: set<string>
    const hasGateway: bool
    /** Everything that other threads could see so far, one entry per step. */
    ghost var seen: seq<Sight>
    /** Services that a transport went on offering because it refused to remove them. */
    ghost var stranded: set<string>

    ghost function View(): Snapshot
      reads this
    {
      Snapshot(advertisedServices.Keys, webSocketServices, gatewayServices)
    }

    /** The record is up to date: no change has gone unrecorded. */
    ghost predicate Recorded()
      reads this
    {
      seen != [] && seen[|seen| - 1].view == View()
    }

    /** Advertised services are offered, and nothing else but what could not be removed. */
    ghost predicate InStep()
      reads this
    {
      Recorded() && advertisedServices.Keys <= webSocketServices && Known(View(), stranded)
    }

    constructor (gateway: bool)
      ensures InStep() && advertisedServices == map[] && hasGateway == gateway && Faithful([], seen) && stranded == {}
    {
      advertisedServices, webSocketServices, gatewayServices, stranded := map[], {}, {}, {};
      hasGateway := gateway;
      seen := [Sight(Snapshot({}, {}, {}), {})];
    }

    /** A step is over; others may look. */
    ghost method Look(removing: set<string>)
      requires seen != [] && Atomic(seen[|seen| - 1].view, View()) && Known(View(), removing + stranded)
      modifies this`seen
      ensures Recorded() && Faithful(old(seen), seen)
    {
      seen := seen + [Sight(View(), removing + stranded)];
    }

    /** TransportManager::addService; false if the WebSocket server does not take the service. */
    method AddService(name: string, o: Oracle) returns (added: bool)
      requires Recorded() && Known(View(), stranded) && name in advertisedServices
      modifies this`webSocketServices, this`gatewayServices, this`seen
      ensures added <==> name in o.webSocketAccepts
      ensures webSocketServices == old(webSocketServices) + if added then {name} else {}
      ensures gatewayServices == old(gatewayServices)
                + if added && hasGateway && name in o.gatewayAccepts then {name} else {}
      ensures Recorded() && Known(View(), stranded) && Faithful(old(seen), seen)
    {
      added := name in o.webSocketAccepts;
      if !added {
        return;
      }
      OneAdded(webSocketServices, name);
      webSocketServices := webSocketServices + {name};
      Look({});
      if hasGateway && name in o.gatewayAccepts {
        ghost var sofar := seen;
        OneAdded(gatewayServices, name);
        gatewayServices := gatewayServices + {name};
        Look({});
        FaithfulThen(old(seen), sofar, seen);
      }
    }

    /** TransportManager::removeService; a refusal is logged, and the service stays offered. */
    method RemoveService(name: string, o: Oracle, ghost batch: set<string>)
      requires Recorded() && Known(View(), batch + stranded) && name in batch
      modifies this`webSocketServices, this`gatewayServices, this`seen, this`stranded
      ensures webSocketServices == old(webSocketServices) - if name in o.webSocketRemoves then {name} else {}
      ensures gatewayServices == old(gatewayServices) - if name in o.gatewayRemoves then {name} else {}
      ensures stranded == old(stranded) + if name in webSocketServices || name in gatewayServices then {name} else {}
      ensures Recorded() && Faithful(old(seen), seen)
    {
      if name in o.webSocketRemoves {
        OneRemoved(webSocketServices, name);
        webSocketServices := webSocketServices - {name};
        Look(batch);
      }
      if name in o.gatewayRemoves {
        ghost var sofar := seen;
        OneRemoved(gatewayServices, name);
        gatewayServices := gatewayServices - {name};
        Look(batch);
        FaithfulThen(old(seen), sofar, seen);
      }
      if name in webSocketServices || name in gatewayServices {
        stranded := stranded + {name};
      }
    }

    /** What these services would leave behind on some transport. */
    ghost function Refused(o: Oracle): set<string>
      reads this
    {
      (webSocketServices - o.webSocketRemoves) + (gatewayServices - o.gatewayRemoves)
    }

    /** Takes a batch of forgotten services from the transports. */
    method RemoveBatch(gone: set<string>, o: Oracle)
      requires Recorded() && Known(View(), gone + stranded)
      modifies this`webSocketServices, this`gatewayServices, this`seen, this`stranded
      ensures Recorded() && Faithful(old(seen), seen)
      ensures webSocketServices == Offered(old(webSocketServices), gone, o.webSocketRemoves)
      ensures gatewayServices == Offered(old(gatewayServices), gone, o.gatewayRemoves)
      ensures stranded == old(stranded) + gone * old(Refused(o))
    {
      ghost var done: set<string> := {};
      ghost var refused := Refused(o);
      var todo := gone;
      while todo != {}
        invariant done !! todo && done + todo == gone
        invariant webSocketServices == Offered(old(webSocketServices), done, o.webSocketRemoves)
        invariant gatewayServices == Offered(old(gatewayServices), done, o.gatewayRemoves)
        invariant stranded == old(stranded) + done * refused
        invariant Recorded() && Faithful(old(seen), seen)
        decreases todo
      {
        var name :| name in todo;
        ghost var sofar := seen;
        RemoveService(name, o, gone);
        FaithfulThen(old(seen), sofar, seen);
        OfferedMore(old(webSocketServices), done, o.webSocketRemoves, name);
        OfferedMore(old(gatewayServices), done, o.gatewayRemoves, name);
        done := done + {name};
        todo := todo - {name};
      }
    }

    /** Forgets the services that are no longer reported, then takes them from the transports. */
    method RemoveGone(serviceNames: seq<string>, o: Oracle)
      requires InStep()
      modifies this`advertisedServices, this`webSocketServices, this`gatewayServices, this`seen, this`stranded
      ensures InStep() && Faithful(old(seen), seen)
      ensures advertisedServices == map n | n in old(advertisedServices) && n in serviceNames :: old(advertisedServices)[n]
      ensures var gone := set n | n in old(advertisedServices) && n !in serviceNames;
              && webSocketServices == Offered(old(webSocketServices), gone, o.webSocketRemoves)
              && gatewayServices == Offered(old(gatewayServices), gone, o.gatewayRemoves)
              && stranded == old(stranded) + gone * old(Refused(o))
    {
      var gone := set n | n in advertisedServices && n !in serviceNames;
      advertisedServices := advertisedServices - gone;
      Look(gone);
      ghost var sofar := seen;
      RemoveBatch(gone, o);
      FaithfulThen(old(seen), sofar, seen);
    }

    /** Advertises one reported service: first in the bridge's own map, then at the SDK. */
    method AddReported(name: string, o: Oracle)
      requires InStep()
      modifies this`advertisedServices, this`webSocketServices, this`gatewayServices, this`seen
      ensures InStep() && Faithful(old(seen), seen)
      ensures name in old(advertisedServices) || name !in o.types || name !in o.webSocketAccepts ==>
                advertisedServices == old(advertisedServices) && gatewayServices == old(gatewayServices)
      ensures name !in old(advertisedServices) && name in o.types && name in o.webSocketAccepts ==>
                && name in advertisedServices && Describes(o, name, advertisedServices[name])
                && advertisedServices == old(advertisedServices)[name := advertisedServices[name]]
                && gatewayServices == old(gatewayServices) + if hasGateway && name in o.gatewayAccepts then {name} else {}
      ensures webSocketServices == old(webSocketServices) + advertisedServices.Keys
    {
      if name in advertisedServices || name !in o.types {
        return;
      }
      var typeName := o.types[name];
      var md5sum := if typeName in o.descriptions then o.descriptions[typeName] else "";
      var added := TryToAdd(name, ServiceDetails(typeName, md5sum), o);
      if !added {
        ghost var sofar := seen;
        advertisedServices := advertisedServices - {name};
        assert advertisedServices == old(advertisedServices);
        Look({});
        FaithfulThen(old(seen), sofar, seen);
      }
    }

    /** The service is in the map before a request for it can arrive. */
    method TryToAdd(name: string, details: ServiceDetails, o: Oracle) returns (added: bool)
      requires InStep() && name !in advertisedServices
      modifies this`advertisedServices, this`webSocketServices, this`gatewayServices, this`seen
      ensures added <==> name in o.webSocketAccepts
      ensures advertisedServices == old(advertisedServices)[name := details]
      ensures webSocketServices == old(webSocketServices) + if added then {name} else {}
      ensures gatewayServices == old(gatewayServices)
                + if added && hasGateway && name in o.gatewayAccepts then {name} else {}
      ensures Recorded() && Known(View(), stranded) && Faithful(old(seen), seen)
    {
      advertisedServices := advertisedServices[name := details];
      Look({});
      ghost var sofar := seen;
      added := AddService(name, o);
      FaithfulThen(old(seen), sofar, seen);
    }

    /** Advertises the reported services that are not advertised yet. */
    method AddNew(serviceNames: seq<string>, o: Oracle)
      requires InStep()
      modifies this`advertisedServices, this`webSocketServices, this`gatewayServices, this`seen
      ensures InStep() && Faithful(old(seen), seen)
      ensures Grown(old(advertisedServices), advertisedServices, serviceNames, o)
      ensures webSocketServices == old(webSocketServices) + advertisedServices.Keys
      ensures gatewayServices == old(gatewayServices) + AtGateway(old(advertisedServices).Keys, advertisedServices.Keys, o, hasGateway)
    {
      for i := 0 to |serviceNames|
        invariant InStep() && Faithful(old(seen), seen)
        invariant Grown(old(advertisedServices), advertisedServices, serviceNames[..i], o)
        invariant webSocketServices == old(webSocketServices) + advertisedServices.Keys
        invariant gatewayServices
               == old(gatewayServices) + AtGateway(old(advertisedServices).Keys, advertisedServices.Keys, o, hasGateway)
      {
        assert serviceNames[..i + 1] == serviceNames[..i] + [serviceNames[i]];
        ghost var sofar, before := seen, advertisedServices;
        AddReported(serviceNames[i], o);
        FaithfulThen(old(seen), sofar, seen);
        GrownMore(old(advertisedServices), before, advertisedServices, serviceNames[..i], serviceNames[i], o, hasGateway);
      }
      assert serviceNames[..|serviceNames|] == serviceNames;
    }

    /**
     In every state that another thread can see during the update, each service a transport offers
     is in the bridge's map, in the batch being removed, or one whose removal was refused. Afterwards
     the map has exactly the reported services that were there before, with their details, and the
     reported ones whose probe and registration succeeded. The WebSocket server then offers exactly
     these if and only if it has removed each service that it offered besides, and nothing new is
     stranded if and only if no transport refused.
     */
    method UpdateAdvertisedServices(serviceNames: seq<string>, o: Oracle)
      requires InStep()
      modifies this`advertisedServices, this`webSocketServices, this`gatewayServices, this`seen, this`stranded
      ensures InStep() && Faithful(old(seen), seen)
      ensures advertisedServices.Keys
           == set n | n in serviceNames && (n in old(advertisedServices) || (n in o.types && n in o.webSocketAccepts))
      ensures forall n :: n in advertisedServices ==>
                if n in old(advertisedServices) then advertisedServices[n] == old(advertisedServices)[n]
                else
                  && n in o.types && advertisedServices[n].typeName == o.types[n]
                  && advertisedServices[n].md5sum == if o.types[n] in o.descriptions then o.descriptions[o.types[n]] else ""
      ensures (forall typeName :: typeName in o.descriptions ==> o.descriptions[typeName] != "") ==>
                forall n :: n in advertisedServices && n !in old(advertisedServices) ==>
                  n in o.types && (Callable(advertisedServices, n) <==> o.types[n] in o.descriptions)
      ensures gatewayServices == old(gatewayServices) - (set n | n in old(advertisedServices) && n !in serviceNames && n in o.gatewayRemoves)
                                 + AtGateway(old(advertisedServices).Keys, advertisedServices.Keys, o, hasGateway)
      ensures webSocketServices == advertisedServices.Keys
          <==> (forall n :: n in old(webSocketServices) && n !in advertisedServices ==>
                  n in old(advertisedServices) && n in o.webSocketRemoves)
      ensures stranded == old(stranded)
          <==> (forall n :: n in old(advertisedServices) && n !in serviceNames && n !in old(stranded) ==>
                  n in o.webSocketRemoves && (n in old(gatewayServices) ==> n in o.gatewayRemoves))
    {
      RemoveGone(serviceNames, o);
      ghost var sofar := seen;
      AddNew(serviceNames, o);
      FaithfulThen(old(seen), sofar, seen);
    }
  }
}
