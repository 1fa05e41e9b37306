/** What a set request leaves in the parameter tree, and what is answered, item by item. */
module ParameterRequests {
  import opened Wrappers
  import opened ParameterConversion
  import opened ParameterTree
  import opened ParameterInterface
  import opened ParameterReach

  /** The value can be converted: no more than 128 containers around any leaf. */
  predicate Convertible(p: Parameter) {
    p.value.Some? ==> ValueHeightAtMost(p.value.value, 128)
  }

  /** The root takes only a namespace that is not empty, and is not deleted. */
  predicate FitForRoot(p: Parameter) {
    p.value.Some? && p.value.value.Dict? && p.value.value.members != map[]
  }

  /** Item i takes effect, at this path: permitted, valid, without failure, and convertible. */
  predicate TakesEffect(ps: seq<Parameter>, i: nat, fails: nat -> bool, target: Target, path: Path)
    requires i < |ps|
  {
    && !fails(i) && target(ps[i].name) == Some(path) && Convertible(ps[i])
    && (path == [] ==> FitForRoot(ps[i]))
  }

  /** No item from `from` on takes effect on q, above it or below it. */
  ghost predicate NoneTouches(ps: seq<Parameter>, from: nat, fails: nat -> bool, target: Target, q: Path) {
    forall j, r :: from <= j < |ps| && TakesEffect(ps, j, fails, target, r) ==> !(r <= q) && !(q <= r)
  }

  lemma ActionIff(ps: seq<Parameter>, i: nat, fails: nat -> bool, target: Target, path: Path)
    requires i < |ps|
    ensures var a := Actions(ps, fails, target)[i];
            (!a.Nothing? && a.path == path) <==> TakesEffect(ps, i, fails, target, path)
  {
    if ps[i].value.Some? {
      ToRosParamIff(ps[i].value.value, ps[i].hint, 0);
      if ToRosParam(ps[i].value.value, ps[i].hint, 0).Some? {
        ToRosParamStores(ps[i].value.value, ps[i].hint, 0);
      }
    }
  }

  lemma NoneTouchesIsUntouched(ps: seq<Parameter>, from: nat, fails: nat -> bool, target: Target, q: Path)
    requires NoneTouches(ps, from, fails, target, q)
    ensures forall j :: from <= j < |ps| ==> !Touches(Actions(ps, fails, target)[j], q)
  {
    forall j | from <= j < |ps| ensures !Touches(Actions(ps, fails, target)[j], q) {
      var a := Actions(ps, fails, target)[j];
      if !a.Nothing? {
        ActionIff(ps, j, fails, target, a.path);
      }
    }
  }

  /** An item that is not permitted, is invalid, fails or does not convert changes nothing. */
  lemma NoEffect(store: RosValue, ps: seq<Parameter>, i: nat, fails: nat -> bool, target: Target)
    requires i < |ps| && forall path :: !TakesEffect(ps, i, fails, target, path)
    ensures SetAll(store, ps[..i + 1], fails, target) == SetAll(store, ps[..i], fails, target)
  {
    OneMoreItem(store, ps, i, fails, target);
    var a := Actions(ps, fails, target)[i];
    if !a.Nothing? {
      ActionIff(ps, i, fails, target, a.path);
    }
  }

  /** A path that no item touches keeps its value. */
  lemma SetLeavesAlone(store: RosValue, ps: seq<Parameter>, fails: nat -> bool, target: Target, q: Path)
    requires NoneTouches(ps, 0, fails, target, q)
    ensures Get(SetAll(store, ps, fails, target), q) == Get(store, q)
  {
    NoneTouchesIsUntouched(ps, 0, fails, target, q);
    UntouchedStays(store, Actions(ps, fails, target), q);
  }

  lemma ItemDecides(store: RosValue, ps: seq<Parameter>, i: nat, fails: nat -> bool, target: Target, path: Path)
    requires i < |ps| && TakesEffect(ps, i, fails, target, path) && NoneTouches(ps, i + 1, fails, target, path)
    ensures Get(SetAll(store, ps, fails, target), path)
         == if ps[i].value.None? then None else ToRosParam(ps[i].value.value, ps[i].hint, 0)
  {
    var acts := Actions(ps, fails, target);
    ActionIff(ps, i, fails, target, path);
    NoneTouchesIsUntouched(ps, i + 1, fails, target, path);
    LastEffectiveWins(store, acts, path, i);
    assert path[|path|..] == [];
  }

  /**
   After a list, a path holds what the last item that takes effect there says, provided that no
   later one touches it: nothing after a deletion, else the item's value, stored by its hint.
   */
  lemma SetItemWins(store: RosValue, ps: seq<Parameter>, i: nat, fails: nat -> bool, target: Target, path: Path)
    requires i < |ps| && TakesEffect(ps, i, fails, target, path) && NoneTouches(ps, i + 1, fails, target, path)
    ensures var after := Get(SetAll(store, ps, fails, target), path);
            && (after.None? <==> ps[i].value.None?)
            && (after.Some? ==> Stores(after.value, ps[i].value.value, ps[i].hint))
  {
    ItemDecides(store, ps, i, fails, target, path);
    if ps[i].value.Some? {
      ToRosParamIff(ps[i].value.value, ps[i].hint, 0);
      ToRosParamStores(ps[i].value.value, ps[i].hint, 0);
    }
  }

  /** Such an item reads back as the value that was sent. */
  predicate Faithful(p: Parameter) {
    && p.value.Some? && FitsInt32(p.value.value) && NoEmptyValue(p.value.value) && !MeantAsDouble(p.value.value, p.hint)
    && (p.value.value.Array? || p.value.value.Dict? ==> ValueHeightAtMost(p.value.value, 127))
  }

  /**
   What the answer to a set request says of an item that decides its path: the very value that was
   sent, exactly if its integers fit, no container is empty, it is not too high and no integer is
   meant as a double; a number meant as a double is echoed as that double; a deleted name is absent.
   */
  lemma SetIsEchoed(store: RosValue, ps: seq<Parameter>, i: nat, fails: nat -> bool, getFails: nat -> bool, target: Target,
                    path: Path)
    requires i < |ps| && TakesEffect(ps, i, fails, target, path) && NoneTouches(ps, i + 1, fails, target, path)
    requires !getFails(i)
    ensures var answer := ReadAll(SetAll(store, ps, fails, target), NamesOf(ps), getFails, target);
            && (ps[i].value.Some? ==>
                ((exists p :: p in answer && p.name == ps[i].name && p.value == ps[i].value) <==> Faithful(ps[i])))
            && (ps[i].value.Some? && MeantAsDouble(ps[i].value.value, ps[i].hint) ==>
                Parameter(ps[i].name, Float64, Some(Double(ps[i].value.value.n as real))) in answer)
            && (ps[i].value.None? ==> forall p :: p in answer ==> p.name != ps[i].name)
  {
    var after, names := SetAll(store, ps, fails, target), NamesOf(ps);
    var answer := ReadAll(after, names, getFails, target);
    ItemDecides(store, ps, i, fails, target, path);
    assert names[i] == ps[i].name;
    var shown := ReadOne(after, names[i], false, target);
    forall p | p in answer && p.name == names[i] ensures shown == Some(p) {
      OnlyRead(after, names, getFails, target, p);
    }
    if shown.Some? {
      InReadAll(after, names, getFails, target, i);
    }
    if ps[i].value.Some? {
      ClientRoundTripIff(names[i], ps[i].value.value, ps[i].hint);
      if shown.Some? {
        FromRosParamShows(names[i], Get(after, path).value);
      }
    }
  }
}
