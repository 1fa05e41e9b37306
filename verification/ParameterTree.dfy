/**
 The master's parameter server: one tree, in which a namespace is itself a parameter. What setting,
 deleting and reading at one path do to another one.
 */
module ParameterTree {
  import opened Wrappers
  import opened ParameterConversion

  /** A resolved name, as its segments; the root is the empty path. */
  type Path = seq<string>

  const EMPTY := RosStruct(map[])

  // ---------------------------------------------------------------- names

  /** The segments of a name; empty ones do not count. `cur` is the segment that has begun. */
  function Split(name: string, cur: string): Path {
    if name == "" then (if cur == "" then [] else [cur])
    else if name[0] == '/' then (if cur == "" then [] else [cur]) + Split(name[1..], "")
    else Split(name[1..], cur + [name[0]])
  }

  function Join(p: Path): string {
    if p == [] then "" else "/" + p[0] + Join(p[1..])
  }

  /** NodeHandle::resolveName without remappings; a private name is refused. */
  function Resolve(namespace_: Path, name: string): Option<Path> {
    if name != "" && name[0] == '~' then None
    else if name != "" && name[0] == '/' then Some(Split(name, ""))
    else Some(namespace_ + Split(name, ""))
  }

  predicate Plain(p: Path) {
    forall i :: 0 <= i < |p| ==> p[i] != "" && '/' !in p[i]
  }

  lemma {:induction false} SplitSegment(seg: string, rest: string, cur: string)
    requires '/' !in seg
    ensures Split(seg + rest, cur) == Split(rest, cur + seg)
  {
    if seg == "" {
      assert seg + rest == rest && cur + seg == cur;
    } else {
      assert (seg + rest)[1..] == seg[1..] + rest;
      assert cur + [seg[0]] + seg[1..] == cur + seg;
      SplitSegment(seg[1..], rest, cur + [seg[0]]);
    }
  }

  lemma {:induction false} SplitJoin(p: Path, cur: string)
    requires Plain(p)
    ensures Split(Join(p), cur) == (if cur == "" then [] else [cur]) + p
  {
    if p != [] {
      var rest := p[0] + Join(p[1..]);
      assert Join(p)[1..] == rest;
      SplitSegment(p[0], Join(p[1..]), "");
      assert "" + p[0] == p[0];
      SplitJoin(p[1..], p[0]);
      assert [p[0]] + p[1..] == p;
    }
  }

  /** The names that the master reports resolve to the paths that they stand for. */
  lemma ResolveJoin(namespace_: Path, p: Path)
    requires Plain(p) && p != []
    ensures Resolve(namespace_, Join(p)) == Some(p)
  {
    SplitJoin(p, "");
    assert [] + p == p;
  }

  // ---------------------------------------------------------------- the tree

  function Get(v: RosValue, p: Path): Option<RosValue>
    decreases |p|
  {
    if p == [] then Some(v)
    else if v.RosStruct? && p[0] in v.members then Get(v.members[p[0]], p[1..])
    else None
  }

  /** What stands below the root under a first segment; nothing counts as an empty namespace. */
  function Child(v: RosValue, segment: string): RosValue {
    if v.RosStruct? && segment in v.members then v.members[segment] else EMPTY
  }

  /** Whatever on the way is missing, or is no namespace, becomes one. */
  function Put(v: RosValue, p: Path, x: RosValue): RosValue
    decreases |p|
  {
    if p == [] then x
    else
      RosStruct((if v.RosStruct? then v.members else map[])[p[0] := Put(Child(v, p[0]), p[1..], x)])
  }

  /** Without everything at and below the path. */
  function Cut(v: RosValue, p: Path): RosValue
    requires p != []
    decreases |p|
  {
    if !v.RosStruct? || p[0] !in v.members then v
    else if |p| == 1 then RosStruct(v.members - {p[0]})
    else RosStruct(v.members[p[0] := Cut(v.members[p[0]], p[1..])])
  }

  function OrEmpty(v: Option<RosValue>): RosValue {
    if v.Some? then v.value else EMPTY
  }

  lemma GetChild(v: RosValue, q: Path)
    requires q != []
    ensures OrEmpty(Get(v, q)) == OrEmpty(Get(Child(v, q[0]), q[1..]))
    ensures |q| > 1 ==> Get(v, q) == Get(Child(v, q[0]), q[1..])
  {
  }

  lemma PutChild(v: RosValue, p: Path, x: RosValue, q: Path)
    requires p != [] && q != []
    ensures Get(Put(v, p, x), q) == if p[0] == q[0] then Get(Put(Child(v, p[0]), p[1..], x), q[1..]) else Get(v, q)
  {
  }

  /** What is read at q after something was put at p. */
  function AfterPut(before: Option<RosValue>, p: Path, x: RosValue, q: Path): Option<RosValue> {
    if p <= q then Get(x, q[|p|..])
    else if q <= p then Some(Put(OrEmpty(before), p[|q|..], x))
    else before
  }

  lemma {:induction false} GetPut(v: RosValue, p: Path, x: RosValue, q: Path)
    ensures Get(Put(v, p, x), q) == AfterPut(Get(v, q), p, x, q)
    decreases |p|
  {
    if p == [] {
      assert q[|p|..] == q;
    } else if q == [] {
      assert p[|q|..] == p;
    } else {
      PutChild(v, p, x, q);
      if p[0] == q[0] {
        GetPut(Child(v, p[0]), p[1..], x, q[1..]);
        AfterPutTail(v, p, x, q);
      }
    }
  }

  lemma AfterPutTail(v: RosValue, p: Path, x: RosValue, q: Path)
    requires p != [] && q != [] && p[0] == q[0]
    ensures AfterPut(Get(Child(v, p[0]), q[1..]), p[1..], x, q[1..]) == AfterPut(Get(v, q), p, x, q)
  {
    GetChild(v, q);
    TailRelation(p, q);
  }

  lemma TailRelation(p: Path, q: Path)
    requires p != [] && q != [] && p[0] == q[0]
    ensures p <= q <==> p[1..] <= q[1..]
    ensures q <= p <==> q[1..] <= p[1..]
    ensures p <= q ==> q[1..][|p[1..]|..] == q[|p|..]
    ensures q <= p ==> p[1..][|q[1..]|..] == p[|q|..]
  {
    if p[1..] <= q[1..] {
      assert q == [q[0]] + q[1..] && p == [p[0]] + p[1..];
    }
    if q[1..] <= p[1..] {
      assert q == [q[0]] + q[1..] && p == [p[0]] + p[1..];
    }
  }

  /** What is read at q after p was cut. */
  function AfterCut(before: Option<RosValue>, p: Path, q: Path): Option<RosValue>
    requires p != []
  {
    if p <= q then None
    else if q <= p && before.Some? then Some(Cut(before.value, p[|q|..]))
    else before
  }

  lemma {:induction false} GetCut(v: RosValue, p: Path, q: Path)
    requires p != []
    ensures Get(Cut(v, p), q) == AfterCut(Get(v, q), p, q)
    decreases |p|
  {
    if q == [] {
      assert p[|q|..] == p;
    } else if p[0] == q[0] && v.RosStruct? && p[0] in v.members {
      TailRelation(p, q);
      if |p| > 1 {
        GetCut(v.members[p[0]], p[1..], q[1..]);
      } else {
        assert p <= q;
      }
    }
  }

  // ---------------------------------------------------------------- what a list of items does

  datatype Action = Nothing | Write(path: Path, value: RosValue) | Delete(path: Path)

  /** The root itself is neither deleted nor set to anything but a namespace. */
  predicate Proper(a: Action) {
    match a
    case Nothing => true
    case Write(p, x) => p == [] ==> x.RosStruct?
    case Delete(p) => p != []
  }

  function Perform(v: RosValue, a: Action): RosValue
    requires Proper(a)
  {
    match a
    case Nothing => v
    case Write(p, x) => Put(v, p, x)
    case Delete(p) => Cut(v, p)
  }

  ghost predicate AllProper(acts: seq<Action>) {
    forall i :: 0 <= i < |acts| ==> Proper(acts[i])
  }

  ghost function PerformAll(v: RosValue, acts: seq<Action>): RosValue
    requires AllProper(acts)
  {
    if acts == [] then v else Perform(PerformAll(v, acts[..|acts| - 1]), acts[|acts| - 1])
  }

  /** The action is on this path or on one above it: whatever was there before no longer matters. */
  predicate Decides(a: Action, q: Path) {
    !a.Nothing? && a.path <= q
  }

  /** The action is on this path, above it or below it. */
  predicate Touches(a: Action, q: Path) {
    !a.Nothing? && (a.path <= q || q <= a.path)
  }

  /** What one action makes of the value at q. */
  function Local(before: Option<RosValue>, a: Action, q: Path): Option<RosValue>
    requires Proper(a)
  {
    match a
    case Nothing => before
    case Write(p, x) => AfterPut(before, p, x, q)
    case Delete(p) => AfterCut(before, p, q)
  }

  ghost function LocalAll(before: Option<RosValue>, acts: seq<Action>, q: Path): Option<RosValue>
    requires AllProper(acts)
  {
    if acts == [] then before else Local(LocalAll(before, acts[..|acts| - 1], q), acts[|acts| - 1], q)
  }

  lemma LocalIsGet(v: RosValue, a: Action, q: Path)
    requires Proper(a)
    ensures Get(Perform(v, a), q) == Local(Get(v, q), a, q)
  {
    match a {
      case Nothing =>
      case Write(p, x) => GetPut(v, p, x, q);
      case Delete(p) => GetCut(v, p, q);
    }
  }

  /** What becomes of a path depends on what was at that path only. */
  lemma {:induction false} ValueAt(v: RosValue, acts: seq<Action>, q: Path)
    requires AllProper(acts)
    ensures Get(PerformAll(v, acts), q) == LocalAll(Get(v, q), acts, q)
  {
    if acts != [] {
      ValueAt(v, acts[..|acts| - 1], q);
      LocalIsGet(PerformAll(v, acts[..|acts| - 1]), acts[|acts| - 1], q);
    }
  }

  /** What a deciding action leaves at q. */
  function Decided(a: Action, q: Path): Option<RosValue>
    requires Decides(a, q)
  {
    if a.Write? then Get(a.value, q[|a.path|..]) else None
  }

  /**
   After a list has been applied from left to right, a path has what the last item on it, or on a
   path above it, says; items further down the list that are below it have been applied to that.
   */
  lemma {:induction false} LastEffectiveWins(v: RosValue, acts: seq<Action>, q: Path, i: nat)
    requires AllProper(acts) && i < |acts| && Decides(acts[i], q)
    ensures Get(PerformAll(v, acts), q) == LocalAll(Decided(acts[i], q), acts[i + 1..], q)
    ensures (forall j :: i < j < |acts| ==> !Touches(acts[j], q)) ==> Get(PerformAll(v, acts), q) == Decided(acts[i], q)
    decreases |acts|
  {
    var k := |acts| - 1;
    LocalIsGet(PerformAll(v, acts[..k]), acts[k], q);
    if i == k {
      assert acts[i + 1..] == [];
    } else {
      LastEffectiveWins(v, acts[..k], q, i);
      var rest := acts[i + 1..];
      assert rest[..|rest| - 1] == acts[..k][i + 1..] && rest[|rest| - 1] == acts[k];
    }
  }

  /** The list has no item on the path, above it or below it. */
  ghost predicate Untouched(acts: seq<Action>, q: Path) {
    forall i :: 0 <= i < |acts| ==> !Touches(acts[i], q)
  }

  lemma {:induction false} UntouchedStays(v: RosValue, acts: seq<Action>, q: Path)
    requires AllProper(acts) && Untouched(acts, q)
    ensures Get(PerformAll(v, acts), q) == Get(v, q)
  {
    if acts != [] {
      UntouchedStays(v, acts[..|acts| - 1], q);
      LocalIsGet(PerformAll(v, acts[..|acts| - 1]), acts[|acts| - 1], q);
    }
  }

  /** Once the last action that touches q is over, its own path reads as it says. */
  lemma {:induction false} LastTouches(v: RosValue, acts: seq<Action>, q: Path, i: nat)
    requires AllProper(acts) && i < |acts| && Touches(acts[i], q)
    requires forall j :: i < j < |acts| ==> !Touches(acts[j], q)
    ensures acts[i].path <= q ==> Get(PerformAll(v, acts), q) == Decided(acts[i], q)
    ensures q < acts[i].path ==> Get(PerformAll(v, acts), acts[i].path) == Decided(acts[i], acts[i].path)
  {
    if acts[i].path <= q {
      LastEffectiveWins(v, acts, q, i);
    } else {
      var p := acts[i].path;
      forall j | i < j < |acts| ensures !Touches(acts[j], p) {
        if Touches(acts[j], p) {
          Comparable(acts[j].path, p, q);
        }
      }
      LastEffectiveWins(v, acts, p, i);
    }
  }

  /** What is above or below p is above or below everything above p. */
  lemma Comparable(r: Path, p: Path, q: Path)
    requires q <= p && (r <= p || p <= r)
    ensures r <= q || q <= r
  {
    if r <= p && |r| <= |q| {
      assert r == p[..|r|] && q == p[..|q|] && q[..|r|] == r;
    } else if r <= p {
      assert q == p[..|q|] && r == p[..|r|] && r[..|q|] == q;
    }
  }

  lemma GetBelow(v: RosValue, u: RosValue, q: Path, p: Path)
    requires q <= p && Get(v, q) == Get(u, q)
    ensures Get(v, p) == Get(u, p)
  {
    GetSplit(v, q, p[|q|..]);
    GetSplit(u, q, p[|q|..]);
    assert q + p[|q|..] == p;
  }

  lemma {:induction false} GetSplit(v: RosValue, q: Path, rest: Path)
    ensures Get(v, q + rest) == if Get(v, q).Some? then Get(Get(v, q).value, rest) else None
    decreases |q|
  {
    if q == [] {
      assert q + rest == rest;
    } else {
      assert (q + rest)[1..] == q[1..] + rest;
      if v.RosStruct? && q[0] in v.members {
        GetSplit(v.members[q[0]], q[1..], rest);
      }
    }
  }

  /** A tree for which the last action that touches q changes what is there. */
  ghost function Witness(acts: seq<Action>, q: Path, i: nat): RosValue
    requires AllProper(acts) && i < |acts| && Touches(acts[i], q)
  {
    var p := if acts[i].path <= q then q else acts[i].path;
    if Decided(acts[i], p).None? then Put(EMPTY, p, RosBool(true))
    else if p != [] || Decided(acts[i], p) != Some(EMPTY) then EMPTY
    else RosStruct(map["" := EMPTY])
  }

  lemma {:induction false} LastOne(acts: seq<Action>, q: Path) returns (i: nat)
    requires !Untouched(acts, q)
    ensures i < |acts| && Touches(acts[i], q) && forall j :: i < j < |acts| ==> !Touches(acts[j], q)
  {
    var k := |acts| - 1;
    if Touches(acts[k], q) {
      i := k;
    } else {
      assert !Untouched(acts[..k], q);
      i := LastOne(acts[..k], q);
    }
  }

  /**
   When exactly a list leaves a path as it is, whatever the parameters are: no item is on the path,
   above it or below it.
   */
  lemma UntouchedIff(acts: seq<Action>, q: Path)
    requires AllProper(acts)
    ensures (forall v: RosValue :: v.RosStruct? ==> Get(PerformAll(v, acts), q) == Get(v, q)) <==> Untouched(acts, q)
  {
    if Untouched(acts, q) {
      forall v: RosValue | v.RosStruct? ensures Get(PerformAll(v, acts), q) == Get(v, q) {
        UntouchedStays(v, acts, q);
      }
    } else {
      var i := LastOne(acts, q);
      var v := Witness(acts, q, i);
      WitnessChanges(acts, q, i);
      assert v.RosStruct? && Get(PerformAll(v, acts), q) != Get(v, q);
    }
  }

  lemma WitnessChanges(acts: seq<Action>, q: Path, i: nat)
    requires AllProper(acts) && i < |acts| && Touches(acts[i], q)
    requires forall j :: i < j < |acts| ==> !Touches(acts[j], q)
    ensures var v := Witness(acts, q, i); v.RosStruct? && Get(PerformAll(v, acts), q) != Get(v, q)
  {
    var v := Witness(acts, q, i);
    var p := if acts[i].path <= q then q else acts[i].path;
    LastTouches(v, acts, q, i);
    GetPut(EMPTY, p, RosBool(true), p);
    assert p[|p|..] == [] && (p == [] ==> Decided(acts[i], p).Some?);
    assert "" in map["" := EMPTY];
    assert Decided(acts[i], p).None? ==> Get(v, p) == Some(RosBool(true));
    assert Get(v, p) != Decided(acts[i], p);
    if Get(PerformAll(v, acts), q) == Get(v, q) {
      GetBelow(PerformAll(v, acts), v, q, p);
    }
  }
}
