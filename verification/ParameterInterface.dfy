/** Ros1ParameterInterface: parameter access over the master's parameter server. */
module ParameterInterface {
  import opened Wrappers
  import opened Sequences
  import opened ParameterConversion
  import opened ParameterTree

  /**
   What the outside decides while names are registered or unregistered, each once: the names for
   which the master's call fails. Getting and setting have one such decision per item of the list.
   */
  datatype Master = Master(failing: set<string>)

  /** The bridge's own parameters are never exposed; everything else goes by the whitelist. */
  predicate Allowed(name: string, ownPrefix: string, whitelist: string -> bool) {
    !(ownPrefix <= name) && whitelist(name)
  }

  // ---------------------------------------------------------------- specification

  /** The path behind a name that a client may use; None if the name is not allowed or not valid. */
  type Target = string -> Option<Path>

  /** What one item of a set request does; `fails` says that the master's call fails or throws. */
  function ActionOf(p: Parameter, fails: bool, target: Target): (a: Action)
    ensures Proper(a)
  {
    var path := target(p.name);
    if path.None? || fails then Nothing
    else if p.value.None? then (if path.value == [] then Nothing else Delete(path.value))
    else
      var converted := ToRosParam(p.value.value, p.hint, 0);
      if converted.None? || (path.value == [] && !converted.value.RosStruct?) then Nothing
      else Write(path.value, converted.value)
  }

  /** Each item by itself: a failure, or a value that does not convert, affects its item only. */
  function Actions(ps: seq<Parameter>, fails: nat -> bool, target: Target): (acts: seq<Action>)
    ensures AllProper(acts) && |acts| == |ps|
  {
    var acts := seq(|ps|, i requires 0 <= i < |ps| => ActionOf(ps[i], fails(i), target));
    assert forall i :: 0 <= i < |acts| ==> acts[i] == ActionOf(ps[i], fails(i), target);
    acts
  }

  /** A whole list, from left to right. */
  ghost function SetAll(store: RosValue, ps: seq<Parameter>, fails: nat -> bool, target: Target): RosValue {
    PerformAll(store, Actions(ps, fails, target))
  }

  lemma OneMoreItem(store: RosValue, ps: seq<Parameter>, i: nat, fails: nat -> bool, target: Target)
    requires i < |ps|
    ensures SetAll(store, ps[..i + 1], fails, target)
         == Perform(SetAll(store, ps[..i], fails, target), ActionOf(ps[i], fails(i), target))
  {
    assert Actions(ps[..i + 1], fails, target)[..i] == Actions(ps[..i], fails, target);
  }

  /** The parameter as a client gets to see it, if it does. */
  function ReadOne(store: RosValue, name: string, fails: bool, target: Target): Option<Parameter> {
    if target(name).None? || fails || Get(store, target(name).value).None? then None
    else FromRosParam(name, Get(store, target(name).value).value)
  }

  function ReadAll(store: RosValue, names: seq<string>, fails: nat -> bool, target: Target): seq<Parameter> {
    if names == [] then []
    else
      var k := |names| - 1;
      var p := ReadOne(store, names[k], fails(k), target);
      ReadAll(store, names[..k], fails, target) + if p.Some? then [p.value] else []
  }

  function NamesOf(ps: seq<Parameter>): seq<string> {
    seq(|ps|, i requires 0 <= i < |ps| => ps[i].name)
  }

  /** A permitted name that is set and whose value can be converted. */
  predicate Shown(store: RosValue, target: Target, name: string) {
    && target(name).Some? && Get(store, target(name).value).Some?
    && var v := Get(store, target(name).value).value;
       Supported(v) && (Compound(v) ==> HeightAtMost(v, 127))
  }

  /** The listed names that are shown and whose own call succeeds, in order. */
  function ShownNames(store: RosValue, names: seq<string>, fails: nat -> bool, target: Target): seq<string> {
    if names == [] then []
    else
      var k := |names| - 1;
      ShownNames(store, names[..k], fails, target) + if !fails(k) && Shown(store, target, names[k]) then [names[k]] else []
  }

  /**
   The answer lists the shown names in request order. Each parameter shows the value at its path,
   scalars as they are and containers element by element, with a hint exactly if it is a double.
   */
  lemma {:induction false} ReadAllAnswers(store: RosValue, names: seq<string>, fails: nat -> bool, target: Target)
    ensures var ps := ReadAll(store, names, fails, target);
            && NamesOf(ps) == ShownNames(store, names, fails, target)
            && forall i :: 0 <= i < |ps| ==>
                 && target(ps[i].name).Some? && Get(store, target(ps[i].name).value).Some?
                 && var v := Get(store, target(ps[i].name).value).value;
                    ps[i].hint == (if v.RosDouble? then Float64 else NoType)
                    && ps[i].value.Some? && Shows(v, ps[i].value.value)
  {
    if names != [] {
      var k := |names| - 1;
      ReadAllAnswers(store, names[..k], fails, target);
      var before := ReadAll(store, names[..k], fails, target);
      var p := ReadOne(store, names[k], fails(k), target);
      if target(names[k]).Some? && Get(store, target(names[k]).value).Some? {
        FromRosParamIff(names[k], Get(store, target(names[k]).value).value);
      }
      if p.Some? {
        FromRosParamShows(names[k], Get(store, target(names[k]).value).value);
        assert NamesOf(before + [p.value]) == NamesOf(before) + [names[k]];
      } else {
        assert ReadAll(store, names, fails, target) == before;
      }
    }
  }

  // ---------------------------------------------------------------- leaves of the tree

  /** The master reports the names of what is no namespace. */
  predicate Leaf(v: RosValue, p: Path) {
    Get(v, p).Some? && !Get(v, p).value.RosStruct?
  }

  function Below(segment: string, ps: seq<Path>): seq<Path> {
    seq(|ps|, i requires 0 <= i < |ps| => [segment] + ps[i])
  }

  lemma BelowMembers(segment: string, ps: seq<Path>, p: Path)
    ensures p in Below(segment, ps) <==> p != [] && p[0] == segment && p[1..] in ps
  {
    if p in Below(segment, ps) {
      var i :| 0 <= i < |ps| && Below(segment, ps)[i] == p;
      assert p[1..] == ps[i];
    }
    if p != [] && p[0] == segment && p[1..] in ps {
      var i :| 0 <= i < |ps| && ps[i] == p[1..];
      assert Below(segment, ps)[i] == p;
    }
  }

  lemma BelowDistinct(segment: string, ps: seq<Path>)
    requires NoRepeats(ps)
    ensures NoRepeats(Below(segment, ps))
  {
    forall i, j | 0 <= i < j < |ps| ensures Below(segment, ps)[i] != Below(segment, ps)[j] {
      assert Below(segment, ps)[i][1..] == ps[i] && Below(segment, ps)[j][1..] == ps[j];
    }
  }

  method Leaves(v: RosValue) returns (ps: seq<Path>)
    ensures forall p :: p in ps <==> Leaf(v, p)
    ensures NoRepeats(ps)
    decreases v
  {
    if !v.RosStruct? {
      return [[]];
    }
    ps := [];
    var todo := v.members.Keys;
    while todo != {}
      invariant todo <= v.members.Keys
      invariant forall p :: p in ps <==> p != [] && p[0] in v.members && p[0] !in todo && Leaf(v.members[p[0]], p[1..])
      invariant NoRepeats(ps)
      decreases todo
    {
      var segment :| segment in todo;
      var sub := Leaves(v.members[segment]);
      forall p { BelowMembers(segment, sub, p); }
      BelowDistinct(segment, sub);
      NoRepeatsAppend(ps, Below(segment, sub));
      ps := ps + Below(segment, sub);
      todo := todo - {segment};
    }
  }

  function Joined(ps: seq<Path>): seq<string> {
    seq(|ps|, i requires 0 <= i < |ps| => Join(ps[i]))
  }

  lemma Unions<T>(a: set<T>, b: set<T>, c: set<T>)
    ensures a + b + c == a + (b + c)
  {
  }

  /** Where a loop over the names throws first; past the end if it does not. */
  function FirstThrow(names: seq<string>, throws: string -> bool): (k: nat)
    ensures k <= |names| && (k < |names| ==> throws(names[k]))
    ensures forall j :: 0 <= j < k ==> !throws(names[j])
  {
    if names == [] || throws(names[0]) then 0 else 1 + FirstThrow(names[1..], throws)
  }

  // ---------------------------------------------------------------- the class

  class Ros1ParameterInterface {
    const ownNamespacePrefix: string
    const whitelist: string -> bool
    /** How roscpp resolves names, for parameters and for subscriptions; None stands for its exception. */
    const resolve: string -> Option<Path>
    const resolveGlobally: string -> Option<Path>
    var subscribedParams: set<string>
    var isShutdown: bool
    /** The master: its parameters, and this bridge's registrations for updates. */
    var store: RosValue
    var registered: set<Path>
    /** How often all parameter names were asked for. */
    ghost var enumerations: nat

    constructor (prefix: string, patterns: string -> bool, resolution: string -> Option<Path>,
                 globalResolution: string -> Option<Path>, parameters: RosValue)
      ensures ownNamespacePrefix == prefix && whitelist == patterns && store == parameters
      ensures resolve == resolution && resolveGlobally == globalResolution
      ensures subscribedParams == {} && registered == {} && !isShutdown && enumerations == 0
      ensures Valid() && Mirrored()
    {
      ownNamespacePrefix, whitelist, store := prefix, patterns, parameters;
      resolve, resolveGlobally := resolution, globalResolution;
      subscribedParams, registered, isShutdown := {}, {}, false;
      enumerations := 0;
    }

    /** Names on the whitelist that do not begin with the bridge's own namespace. */
    ghost function Permitted(): (permitted: string -> bool)
      ensures forall n :: permitted(n) <==> whitelist(n) && !(ownNamespacePrefix <= n)
    {
      n => Allowed(n, ownNamespacePrefix, whitelist)
    }

    ghost function TargetOf(): (target: Target)
      ensures forall n :: target(n) == if whitelist(n) && !(ownNamespacePrefix <= n) then resolve(n) else None
    {
      var target := n => if Allowed(n, ownNamespacePrefix, whitelist) then resolve(n) else None;
      assert forall n :: target(n) == if Allowed(n, ownNamespacePrefix, whitelist) then resolve(n) else None;
      target
    }

    /** Registering the name throws: it is permitted, and does not resolve. */
    ghost function Throws(): (throws: string -> bool)
      ensures forall n :: throws(n) <==> whitelist(n) && !(ownNamespacePrefix <= n) && resolveGlobally(n).None?
    {
      var throws := n => Allowed(n, ownNamespacePrefix, whitelist) && resolveGlobally(n).None?;
      assert forall n :: throws(n) <==> Allowed(n, ownNamespacePrefix, whitelist) && resolveGlobally(n).None?;
      throws
    }

    ghost function Invalid(): string -> bool
    {
      n => resolveGlobally(n).None?
    }

    /** Only names that resolve have been subscribed. */
    ghost predicate Valid()
      reads this
    {
      forall n :: n in subscribedParams ==> resolveGlobally(n).Some?
    }

    ghost function Paths(names: set<string>): set<Path>
    {
      set n | n in names && resolveGlobally(n).Some? :: resolveGlobally(n).value
    }

    /** The master has the registrations of the subscribed names, and no other. */
    ghost predicate Mirrored()
      reads this
    {
      registered == Paths(subscribedParams)
    }

    predicate IsOwnParameter(name: string) {
      ownNamespacePrefix <= name
    }

    /** The names of all leaves of the parameter server in some order, or a failure. */
    method GetParamNames(available: bool) returns (names: Option<seq<string>>, ghost leaves: seq<Path>)
      modifies this`enumerations
      ensures enumerations == old(enumerations) + 1
      ensures names.Some? <==> available
      ensures available ==> names.value == Joined(leaves)
      ensures (forall p :: p in leaves <==> Leaf(store, p)) && NoRepeats(leaves)
    {
      enumerations := enumerations + 1;
      var paths := Leaves(store);
      leaves := paths;
      names := if available then Some(Joined(paths)) else None;
    }

    /** None stands for the exception that reaches the caller. */
    method GetParams(paramNames: seq<string>, fails: nat -> bool, namesAvailable: bool)
      returns (params: Option<seq<Parameter>>, ghost leaves: seq<Path>)
      modifies this`enumerations
      ensures paramNames != [] ==>
                enumerations == old(enumerations) && params == Some(ReadAll(store, paramNames, fails, TargetOf()))
      ensures paramNames == [] ==>
                && enumerations == old(enumerations) + 1
                && (params.Some? <==> namesAvailable)
                && (forall p :: p in leaves <==> Leaf(store, p)) && NoRepeats(leaves)
                && (params.Some? ==> params.value == ReadAll(store, Joined(leaves), fails, TargetOf()))
    {
      var wanted := paramNames;
      leaves := [];
      if paramNames == [] {
        var all;
        all, leaves := GetParamNames(namesAvailable);
        if all.None? {
          return None, leaves;
        }
        wanted := all.value;
      }
      var result: seq<Parameter> := [];
      for i := 0 to |wanted|
        invariant result == ReadAll(store, wanted[..i], fails, TargetOf())
      {
        assert wanted[..i + 1][..i] == wanted[..i];
        var name := wanted[i];
        if IsOwnParameter(name) {
          continue;
        }
        if !whitelist(name) {
          continue;
        }
        var path := resolve(name);
        if !fails(i) && path.Some? {
          var value := Get(store, path.value);
          if value.Some? {
            var param := FromRosParam(name, value.value);
            if param.Some? {
              result := result + [param.value];
            }
          }
        }
      }
      assert wanted[..|wanted|] == wanted;
      params := Some(result);
    }

    /** deleteParam; the root cannot be deleted, and deleting what is not there does nothing. */
    method DeleteParam(path: Path)
      modifies this`store
      ensures store == if path == [] then old(store) else Cut(old(store), path)
    {
      if path != [] {
        store := Cut(store, path);
      }
    }

    /** setParam; the root can only be set to a namespace. */
    method SetParam(path: Path, value: RosValue)
      modifies this`store
      ensures store == if path == [] && !value.RosStruct? then old(store) else Put(old(store), path, value)
    {
      if path != [] || value.RosStruct? {
        store := Put(store, path, value);
      }
    }

    method SetParams(params: seq<Parameter>, fails: nat -> bool)
      modifies this`store
      ensures store == SetAll(old(store), params, fails, TargetOf())
    {
      for i := 0 to |params|
        invariant store == SetAll(old(store), params[..i], fails, TargetOf())
      {
        OneMoreItem(old(store), params, i, fails, TargetOf());
        ghost var action := ActionOf(params[i], fails(i), TargetOf());
        var name := params[i].name;
        assert TargetOf()(name) == if Allowed(name, ownNamespacePrefix, whitelist) then resolve(name) else None;
        if IsOwnParameter(name) {
          continue;
        }
        if !whitelist(name) {
          continue;
        }
        var path := resolve(name);
        if fails(i) || path.None? {
          continue;
        }
        ghost var before := store;
        if params[i].value.None? {
          DeleteParam(path.value);
        } else {
          var converted := ToRosParam(params[i].value.value, params[i].hint, 0);
          if converted.Some? {
            SetParam(path.value, converted.value);
          }
        }
        assert store == Perform(before, action);
      }
      assert params[..|params|] == params;
    }

    /** executeParamSubscription("subscribeParam", …); None stands for its exception. */
    method Register(name: string, master: Master) returns (ok: Option<bool>)
      modifies this`registered
      ensures ok.Some? <==> resolveGlobally(name).Some?
      ensures ok.Some? ==> (ok.value <==> name !in master.failing)
      ensures registered == old(registered) + if ok == Some(true) then {resolveGlobally(name).value} else {}
    {
      var path := resolveGlobally(name);
      if path.None? {
        return None;
      }
      ok := Some(name !in master.failing);
      if ok.value {
        registered := registered + {path.value};
      }
    }

    /** executeParamSubscription("unsubscribeParam", …) */
    method Unregister(name: string, master: Master) returns (ok: Option<bool>)
      modifies this`registered
      ensures ok.Some? <==> resolveGlobally(name).Some?
      ensures ok.Some? ==> (ok.value <==> name !in master.failing)
      ensures registered == old(registered) - if ok == Some(true) then {resolveGlobally(name).value} else {}
    {
      var path := resolveGlobally(name);
      if path.None? {
        return None;
      }
      ok := Some(name !in master.failing);
      if ok.value {
        registered := registered - {path.value};
      }
    }

    /** The permitted names of the list for which the master's call succeeds. */
    ghost function Accepted(names: seq<string>, master: Master): set<string> {
      set n | n in names && n !in master.failing && Allowed(n, ownNamespacePrefix, whitelist)
    }

    /** Those before the first one for which registering throws. */
    ghost function Added(paramNames: seq<string>, master: Master): set<string> {
      Accepted(paramNames[..FirstThrow(paramNames, Throws())], master)
    }

    ghost function Dropped(paramNames: seq<string>, master: Master): set<string> {
      set n | n in paramNames[..FirstThrow(paramNames, Invalid())] && n !in master.failing
    }

    lemma AddedAll(paramNames: seq<string>, master: Master)
      requires master.failing == {} && forall n :: n in paramNames ==> resolveGlobally(n).Some?
      ensures Added(paramNames, master) == set n | n in paramNames && Permitted()(n)
    {
      assert paramNames[..|paramNames|] == paramNames;
    }

    lemma DroppedAll(paramNames: seq<string>, master: Master)
      requires master.failing == {} && forall n :: n in paramNames ==> resolveGlobally(n).Some?
      ensures Dropped(paramNames, master) == set n | n in paramNames
    {
      assert paramNames[..|paramNames|] == paramNames;
    }

    lemma PathsMore(names: set<string>, name: string)
      requires resolveGlobally(name).Some?
      ensures Paths(names + {name}) == Paths(names) + {resolveGlobally(name).value}
    {
    }

    /** The first invalid name that is permitted ends the call with an exception. */
    method SubscribeParams(paramNames: seq<string>, master: Master) returns (thrown: bool)
      requires Valid()
      modifies this`subscribedParams, this`registered
      ensures Valid()
      ensures old(isShutdown) ==> !thrown && subscribedParams == old(subscribedParams) && registered == old(registered)
      ensures !old(isShutdown) ==>
                && (thrown <==> FirstThrow(paramNames, Throws()) < |paramNames|)
                && subscribedParams == old(subscribedParams) + Added(paramNames, master)
                && registered == old(registered) + Paths(Added(paramNames, master))
      ensures !old(isShutdown) && !thrown ==>
                subscribedParams == old(subscribedParams)
                  + set n | n in paramNames && n !in master.failing && whitelist(n) && !(ownNamespacePrefix <= n)
      ensures old(Mirrored()) ==> Mirrored()
    {
      if isShutdown {
        return false;
      }
      thrown := SubscribeEach(paramNames, master);
      PathsUnion(old(subscribedParams), Added(paramNames, master));
      if !thrown {
        assert paramNames[..|paramNames|] == paramNames;
      }
    }

    /** The loop over the names. */
    method SubscribeEach(paramNames: seq<string>, master: Master) returns (thrown: bool)
      requires Valid()
      modifies this`subscribedParams, this`registered
      ensures Valid()
      ensures thrown <==> FirstThrow(paramNames, Throws()) < |paramNames|
      ensures subscribedParams == old(subscribedParams) + Added(paramNames, master)
      ensures registered == old(registered) + Paths(Added(paramNames, master))
    {
      ghost var subscribed, paths, stop := subscribedParams, registered, FirstThrow(paramNames, Throws());
      thrown := false;
      var i := 0;
      assert Accepted(paramNames[..0], master) == {} && Paths({}) == {};
      while i < |paramNames| && !thrown
        invariant 0 <= i <= stop && (thrown ==> i == stop < |paramNames|)
        invariant subscribedParams == subscribed + Accepted(paramNames[..i], master)
        invariant registered == paths + Paths(Accepted(paramNames[..i], master))
        invariant Valid()
        decreases |paramNames| - i, !thrown
      {
        ghost var throws := StopsAt(paramNames, i);
        ghost var more := AcceptedMore(paramNames, i, master);
        Unions(subscribed, Accepted(paramNames[..i], master), more);
        Unions(paths, Paths(Accepted(paramNames[..i], master)), Paths(more));
        thrown := SubscribeNext(paramNames[i], master);
        if !thrown {
          i := i + 1;
        }
      }
    }

    lemma StopsAt(paramNames: seq<string>, i: nat) returns (throws: bool)
      requires i < |paramNames| && i <= FirstThrow(paramNames, Throws())
      ensures throws <==> i == FirstThrow(paramNames, Throws())
      ensures throws <==> whitelist(paramNames[i]) && !(ownNamespacePrefix <= paramNames[i]) && resolveGlobally(paramNames[i]).None?
    {
      throws := Throws()(paramNames[i]);
    }

    /** One turn of the loop; true if it throws. */
    method SubscribeNext(name: string, master: Master) returns (thrown: bool)
      requires Valid()
      modifies this`subscribedParams, this`registered
      ensures Valid()
      ensures thrown <==> whitelist(name) && !(ownNamespacePrefix <= name) && resolveGlobally(name).None?
      ensures var added := if !thrown && name !in master.failing && whitelist(name) && !(ownNamespacePrefix <= name)
                           then {name} else {};
              && subscribedParams == old(subscribedParams) + added
              && registered == old(registered) + Paths(added)
    {
      thrown := false;
      assert Paths({}) == {} && (resolveGlobally(name).Some? ==> Paths({name}) == {resolveGlobally(name).value});
      if IsOwnParameter(name) {
        return;
      }
      if !whitelist(name) {
        return;
      }
      var ok := Register(name, master);
      if ok.None? {
        return true;
      }
      if ok.value {
        subscribedParams := subscribedParams + {name};
      }
    }

    /** What one more name adds, if registering it does not throw. */
    lemma AcceptedMore(names: seq<string>, i: nat, master: Master) returns (more: set<string>)
      requires i < |names|
      ensures more == if names[i] !in master.failing && whitelist(names[i]) && !(ownNamespacePrefix <= names[i])
                      then {names[i]} else {}
      ensures Accepted(names[..i + 1], master) == Accepted(names[..i], master) + more
      ensures Paths(Accepted(names[..i + 1], master)) == Paths(Accepted(names[..i], master)) + Paths(more)
    {
      assert names[..i + 1] == names[..i] + [names[i]];
      more := Accepted([names[i]], master);
      PathsUnion(Accepted(names[..i], master), more);
    }

    lemma PathsUnion(a: set<string>, b: set<string>)
      ensures Paths(a + b) == Paths(a) + Paths(b)
    {
    }

    method UnsubscribeParams(paramNames: seq<string>, master: Master) returns (thrown: bool)
      requires Valid()
      modifies this`subscribedParams, this`registered
      ensures Valid()
      ensures thrown <==> FirstThrow(paramNames, Invalid()) < |paramNames|
      ensures subscribedParams == old(subscribedParams) - Dropped(paramNames, master)
      ensures registered == old(registered) - Paths(Dropped(paramNames, master))
      ensures !thrown ==> subscribedParams == old(subscribedParams) - set n | n in paramNames && n !in master.failing
      ensures old(Mirrored()) ==>
                (Mirrored() <==> Paths(old(subscribedParams) - Dropped(paramNames, master)) !! Paths(Dropped(paramNames, master)))
    {
      ghost var dropped: set<string> := {};
      assert Paths(dropped) == {};
      thrown := false;
      var i := 0;
      while i < |paramNames| && !thrown
        invariant i <= |paramNames| && forall j :: 0 <= j < i ==> !Invalid()(paramNames[j])
        invariant dropped == set n | n in paramNames[..i] && n !in master.failing
        invariant subscribedParams == old(subscribedParams) - dropped
        invariant registered == old(registered) - Paths(dropped)
        invariant thrown ==> i < |paramNames| && Invalid()(paramNames[i])
        decreases |paramNames| - i, !thrown
      {
        var name := paramNames[i];
        assert paramNames[..i + 1] == paramNames[..i] + [name];
        var ok := Unregister(name, master);
        if ok.None? {
          thrown := true;
        } else {
          if ok.value {
            subscribedParams := subscribedParams - {name};
            PathsMore(dropped, name);
            dropped := dropped + {name};
          }
          i := i + 1;
        }
      }
      assert i == FirstThrow(paramNames, Invalid());
      assert !thrown ==> paramNames[..i] == paramNames;
      assert dropped == Dropped(paramNames, master);
      PathsUnion(old(subscribedParams) - dropped, old(subscribedParams) * dropped);
      assert old(subscribedParams) == (old(subscribedParams) - dropped) + (old(subscribedParams) * dropped);
    }

    /** Idempotent; what was subscribed is unregistered once. */
    method Shutdown(master: Master)
      requires Valid()
      modifies this`subscribedParams, this`registered, this`isShutdown
      ensures isShutdown && Valid()
      ensures old(isShutdown) ==> subscribedParams == old(subscribedParams) && registered == old(registered)
      ensures !old(isShutdown) ==>
                subscribedParams == {} && registered == old(registered) - Paths(old(subscribedParams) - master.failing)
      ensures !old(isShutdown) && old(Mirrored()) && master.failing == {} ==> registered == {}
    {
      if isShutdown {
        return;
      }
      isShutdown := true;
      var subscribed := subscribedParams;
      subscribedParams := {};
      var todo := subscribed;
      ghost var dropped: set<string> := {};
      assert Paths(dropped) == {};
      while todo != {}
        invariant todo <= subscribed && dropped == subscribed - todo - master.failing
        invariant isShutdown && subscribedParams == {}
        invariant registered == old(registered) - Paths(dropped)
        decreases todo
      {
        var name :| name in todo;
        var ok := Unregister(name, master);
        if ok.value {
          PathsMore(dropped, name);
          dropped := dropped + {name};
        }
        todo := todo - {name};
      }
      assert dropped == subscribed - master.failing;
      assert master.failing == {} ==> dropped == subscribed;
    }
  }
}
