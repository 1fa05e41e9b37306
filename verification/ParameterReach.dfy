/**
 How far requests reach in the parameter tree: when exactly an answer says something about a path,
 and what of this the bridge's check of its own parameters, on the spelled name, keeps out.
 */
module ParameterReach {
  import opened Wrappers
  import opened ParameterConversion
  import opened ParameterTree
  import opened ParameterInterface

  /** The same parameters, except perhaps at and below q. */
  ghost predicate SameBut(t: RosValue, u: RosValue, q: Path)
    requires q != []
  {
    t.RosStruct? && u.RosStruct? && Cut(t, q) == Cut(u, q)
  }

  /** Reading r shows something of q: r is at or below q, or above it with not too much in between. */
  predicate Reaches(r: Path, q: Path) {
    q <= r || (r <= q && |q| - |r| <= MAX_PARAM_DEPTH)
  }

  // ---------------------------------------------------------------- answers

  lemma {:induction false} InReadAll(t: RosValue, names: seq<string>, fails: nat -> bool, target: Target, i: nat)
    requires i < |names| && !fails(i) && ReadOne(t, names[i], false, target).Some?
    ensures ReadOne(t, names[i], false, target).value in ReadAll(t, names, fails, target)
    decreases |names|
  {
    if i < |names| - 1 {
      InReadAll(t, names[..|names| - 1], fails, target, i);
    }
  }

  lemma {:induction false} OnlyRead(t: RosValue, names: seq<string>, fails: nat -> bool, target: Target, p: Parameter)
    requires p in ReadAll(t, names, fails, target)
    ensures ReadOne(t, p.name, false, target) == Some(p)
  {
    var k := |names| - 1;
    if p in ReadAll(t, names[..k], fails, target) {
      OnlyRead(t, names[..k], fails, target, p);
    }
  }

  /** Two answers are equal exactly if each item whose call succeeds reads the same. */
  lemma ReadAllEqualIff(t: RosValue, u: RosValue, names: seq<string>, fails: nat -> bool, target: Target)
    ensures ReadAll(t, names, fails, target) == ReadAll(u, names, fails, target)
        <==> forall i :: 0 <= i < |names| && !fails(i) ==>
               ReadOne(t, names[i], false, target) == ReadOne(u, names[i], false, target)
  {
    if ReadAll(t, names, fails, target) == ReadAll(u, names, fails, target) {
      forall i | 0 <= i < |names| && !fails(i)
        ensures ReadOne(t, names[i], false, target) == ReadOne(u, names[i], false, target)
      {
        SameItem(t, u, names, fails, target, i);
        SameItem(u, t, names, fails, target, i);
      }
    }
    if forall i :: 0 <= i < |names| && !fails(i) ==>
         ReadOne(t, names[i], false, target) == ReadOne(u, names[i], false, target) {
      SameAnswers(t, u, names, fails, target);
    }
  }

  lemma SameItem(t: RosValue, u: RosValue, names: seq<string>, fails: nat -> bool, target: Target, i: nat)
    requires ReadAll(t, names, fails, target) == ReadAll(u, names, fails, target) && i < |names| && !fails(i)
    ensures ReadOne(t, names[i], false, target).Some? ==>
              ReadOne(t, names[i], false, target) == ReadOne(u, names[i], false, target)
  {
    var p := ReadOne(t, names[i], false, target);
    if p.Some? {
      InReadAll(t, names, fails, target, i);
      OnlyRead(u, names, fails, target, p.value);
    }
  }

  lemma {:induction false} SameAnswers(t: RosValue, u: RosValue, names: seq<string>, fails: nat -> bool, target: Target)
    requires forall i :: 0 <= i < |names| && !fails(i) ==>
               ReadOne(t, names[i], false, target) == ReadOne(u, names[i], false, target)
    ensures ReadAll(t, names, fails, target) == ReadAll(u, names, fails, target)
  {
    if names != [] {
      SameAnswers(t, u, names[..|names| - 1], fails, target);
      assert !fails(|names| - 1) ==>
          ReadOne(t, names[|names| - 1], false, target) == ReadOne(u, names[|names| - 1], false, target);
    }
  }

  // ---------------------------------------------------------------- out of reach

  lemma {:induction false} CutNothing(v: RosValue, q: Path)
    requires q != [] && Get(v, q).None?
    ensures Cut(v, q) == v
    decreases |q|
  {
    if v.RosStruct? && q[0] in v.members {
      CutNothing(v.members[q[0]], q[1..]);
      assert v.members[q[0] := v.members[q[0]]] == v.members;
    }
  }

  /** There are at least as many containers around something as there are segments on the way. */
  lemma {:induction false} DeepIsHigh(v: RosValue, s: Path, h: int)
    requires Get(v, s).Some? && HeightAtMost(v, h)
    ensures h >= |s|
    decreases |s|
  {
    if s != [] {
      DeepIsHigh(v.members[s[0]], s[1..], h - 1);
    }
  }

  /** If the trees differ at q, both have a namespace right above it. */
  lemma DifferBelowNamespace(t: RosValue, u: RosValue, q: Path)
    requires q != [] && SameBut(t, u, q) && t != u
    ensures var parent := q[..|q| - 1]; Get(t, parent).Some? && Get(u, parent).Some?
  {
    var parent := q[..|q| - 1];
    GetCut(t, q, parent);
    GetCut(u, q, parent);
    if Get(t, q).None? && Get(u, q).None? {
      CutNothing(t, q);
      CutNothing(u, q);
    } else if Get(t, q).Some? {
      GetSplit(t, parent, [q[|q| - 1]]);
      assert parent + [q[|q| - 1]] == q;
    } else {
      GetSplit(u, parent, [q[|q| - 1]]);
      assert parent + [q[|q| - 1]] == q;
    }
  }

  lemma OutOfReach(t: RosValue, u: RosValue, q: Path, r: Path, name: string)
    requires q != [] && SameBut(t, u, q) && !Reaches(r, q)
    ensures Shows(t, r, name) == Shows(u, r, name)
  {
    if r <= q {
      if t != u {
        DifferBelowNamespace(t, u, q);
        TooHigh(t, q, r, name);
        TooHigh(u, q, r, name);
      }
    } else {
      GetCut(t, q, r);
      GetCut(u, q, r);
    }
  }

  /** What a client sees of a path. */
  function Shows(t: RosValue, r: Path, name: string): Option<Parameter> {
    if Get(t, r).None? then None else FromRosParam(name, Get(t, r).value)
  }

  lemma TooHigh(t: RosValue, q: Path, r: Path, name: string)
    requires q != [] && r <= q && |q| - |r| > MAX_PARAM_DEPTH && Get(t, q[..|q| - 1]).Some?
    ensures Shows(t, r, name) == None
  {
    var parent := q[..|q| - 1];
    var rest := parent[|r|..];
    assert r + rest == parent;
    GetSplit(t, r, rest);
    var v := Get(t, r).value;
    FromRosParamIff(name, v);
    if HeightAtMost(v, MAX_PARAM_DEPTH - 1) {
      DeepIsHigh(v, rest, MAX_PARAM_DEPTH - 1);
    }
  }

  // ---------------------------------------------------------------- within reach

  lemma {:induction false} CutTwice(v: RosValue, q: Path)
    requires q != []
    ensures Cut(Cut(v, q), q) == Cut(v, q)
  {
    GetCut(v, q, q);
    CutNothing(Cut(v, q), q);
  }

  lemma CutPutStep(v: RosValue, q: Path, x: RosValue)
    requires q != []
    ensures var ms := if v.RosStruct? then v.members else map[];
            Cut(Put(v, q, x), q)
            == if |q| == 1 then RosStruct(ms - {q[0]})
               else RosStruct(ms[q[0] := Cut(Put(Child(v, q[0]), q[1..], x), q[1..])])
  {
    var ms := if v.RosStruct? then v.members else map[];
    var c := Put(Child(v, q[0]), q[1..], x);
    assert Put(v, q, x) == RosStruct(ms[q[0] := c]);
    if |q| == 1 {
      assert ms[q[0] := c] - {q[0]} == ms - {q[0]};
    } else {
      assert ms[q[0] := c][q[0] := Cut(c, q[1..])] == ms[q[0] := Cut(c, q[1..])];
    }
  }

  lemma {:induction false} CutPut(v: RosValue, q: Path, x: RosValue, y: RosValue)
    requires q != []
    ensures Cut(Put(v, q, x), q) == Cut(Put(v, q, y), q)
    decreases |q|
  {
    CutPutStep(v, q, x);
    CutPutStep(v, q, y);
    if |q| > 1 {
      CutPut(Child(v, q[0]), q[1..], x, y);
    }
  }

  /** A lone scalar inside |s| namespaces. */
  lemma {:induction false} Chain(s: Path, n: Int32, h: int)
    ensures var c := Put(EMPTY, s, RosInt(n));
            Supported(c) && NoEmpty(c) && (HeightAtMost(c, h) <==> h >= |s|) && (s != [] ==> c.RosStruct?)
    decreases |s|
  {
    if s != [] {
      Chain(s[1..], n, h - 1);
      var c := Put(EMPTY, s, RosInt(n));
      assert c == RosStruct(map[s[0] := Put(EMPTY, s[1..], RosInt(n))]);
      assert s[0] in c.members;
    }
  }

  lemma {:induction false} CutChain(s: Path, n: Int32, h: int)
    requires s != []
    ensures var c := Cut(Put(EMPTY, s, RosInt(n)), s);
            c.RosStruct? && Supported(c) && (HeightAtMost(c, h) <==> h >= |s| - 1)
    decreases |s|
  {
    var inner := Put(EMPTY, s[1..], RosInt(n));
    assert Put(EMPTY, s, RosInt(n)) == RosStruct(map[s[0] := inner]);
    if |s| > 1 {
      CutChain(s[1..], n, h - 1);
      var c := Cut(Put(EMPTY, s, RosInt(n)), s);
      assert c == RosStruct(map[s[0] := Cut(inner, s[1..])]);
      assert s[0] in c.members;
    } else {
      assert Cut(Put(EMPTY, s, RosInt(n)), s) == RosStruct(map[]);
    }
  }

  /** Two chains that differ in their scalar, or the chain and what is left without the scalar, read differently. */
  lemma ChainsDiffer(s: Path, name: string)
    requires 0 < |s| <= MAX_PARAM_DEPTH
    ensures var c := Put(EMPTY, s, RosInt(0));
            if |s| < MAX_PARAM_DEPTH then FromRosParam(name, c) != FromRosParam(name, Put(EMPTY, s, RosInt(1)))
            else FromRosParam(name, c) != FromRosParam(name, Cut(c, s))
  {
    var c := Put(EMPTY, s, RosInt(0));
    Chain(s, 0, MAX_PARAM_DEPTH - 1);
    FromRosParamIff(name, c);
    if |s| < MAX_PARAM_DEPTH {
      var d := Put(EMPTY, s, RosInt(1));
      Chain(s, 1, MAX_PARAM_DEPTH - 1);
      FromRosParamIff(name, d);
      RoundTripIff(name, c, Exact);
      RoundTripIff(name, d, Exact);
      GetPut(EMPTY, s, RosInt(0), s);
      GetPut(EMPTY, s, RosInt(1), s);
      assert s[|s|..] == [];
    } else {
      CutChain(s, 0, MAX_PARAM_DEPTH - 1);
      FromRosParamIff(name, Cut(c, s));
    }
  }

  /** Two sets of parameters that differ at q only and read differently at r. */
  lemma WithinReach(q: Path, r: Path, name: string) returns (t: RosValue, u: RosValue)
    requires q != [] && Reaches(r, q)
    ensures SameBut(t, u, q) && Shows(t, r, name) != Shows(u, r, name)
  {
    if q <= r {
      t := Put(EMPTY, r, RosBool(true));
      u := Cut(t, q);
      CutTwice(t, q);
      GetPut(EMPTY, r, RosBool(true), r);
      assert r[|r|..] == [];
      GetCut(t, q, r);
    } else {
      var s := q[|r|..];
      t := Put(EMPTY, q, RosInt(0));
      GetPut(EMPTY, q, RosInt(0), r);
      EmptyBelow(r);
      ChainsDiffer(s, name);
      if |s| < MAX_PARAM_DEPTH {
        u := Put(EMPTY, q, RosInt(1));
        CutPut(EMPTY, q, RosInt(0), RosInt(1));
        GetPut(EMPTY, q, RosInt(1), r);
      } else {
        u := Cut(t, q);
        CutTwice(t, q);
        GetCut(t, q, r);
      }
    }
  }

  lemma EmptyBelow(r: Path)
    ensures OrEmpty(Get(EMPTY, r)) == EMPTY
  {
  }

  // ---------------------------------------------------------------- exactly what a request reaches

  /**
   When exactly an answer holds nothing of a path, whatever the parameters are: no item that is
   permitted and whose call succeeds is at the path, below it, or above it within 128 levels.
   */
  lemma UnreadIff(names: seq<string>, fails: nat -> bool, target: Target, q: Path)
    requires q != []
    ensures (forall t, u :: SameBut(t, u, q) ==> ReadAll(t, names, fails, target) == ReadAll(u, names, fails, target))
        <==> (forall i :: 0 <= i < |names| && !fails(i) && target(names[i]).Some? ==> !Reaches(target(names[i]).value, q))
  {
    if forall i :: 0 <= i < |names| && !fails(i) && target(names[i]).Some? ==> !Reaches(target(names[i]).value, q) {
      forall t, u | SameBut(t, u, q) ensures ReadAll(t, names, fails, target) == ReadAll(u, names, fails, target) {
        forall i | 0 <= i < |names| && !fails(i)
          ensures ReadOne(t, names[i], false, target) == ReadOne(u, names[i], false, target)
        {
          if target(names[i]).Some? {
            OutOfReach(t, u, q, target(names[i]).value, names[i]);
          }
        }
        ReadAllEqualIff(t, u, names, fails, target);
      }
    } else {
      var i :| 0 <= i < |names| && !fails(i) && target(names[i]).Some? && Reaches(target(names[i]).value, q);
      var t, u := WithinReach(q, target(names[i]).value, names[i]);
      ReadAllEqualIff(t, u, names, fails, target);
      assert ReadOne(t, names[i], false, target) != ReadOne(u, names[i], false, target);
    }
  }

  // ---------------------------------------------------------------- the bridge's own parameters

  /**
   When exactly a list leaves all parameters below a node's namespace as they are: no item is at
   the namespace, above it or below it.
   */
  lemma OwnUntouchedIff(acts: seq<Action>, node: Path)
    requires AllProper(acts)
    ensures (forall q: Path, v: RosValue :: node < q && v.RosStruct? ==> Get(PerformAll(v, acts), q) == Get(v, q))
        <==> Untouched(acts, node)
  {
    if Untouched(acts, node) {
      forall q: Path, v: RosValue | node < q && v.RosStruct? ensures Get(PerformAll(v, acts), q) == Get(v, q) {
        forall i | 0 <= i < |acts| ensures !Touches(acts[i], q) {
          if Touches(acts[i], q) {
            Comparable(acts[i].path, q, node);
          }
        }
        UntouchedStays(v, acts, q);
      }
    } else {
      var i :| 0 <= i < |acts| && Touches(acts[i], node);
      var q := if acts[i].path <= node then node + [""] else acts[i].path;
      assert node < q && Touches(acts[i], q) && !Untouched(acts, q);
      UntouchedIff(acts, q);
    }
  }

  /** Reading r shows something below the node's namespace. */
  predicate ReachesBelow(r: Path, node: Path) {
    node <= r || (r <= node && |node| - |r| < MAX_PARAM_DEPTH)
  }

  /**
   When exactly an answer holds nothing of the parameters below a node's namespace: no item that is
   permitted and whose call succeeds is at the namespace, below it, or above it within 127 levels.
   */
  lemma OwnUnreadIff(names: seq<string>, fails: nat -> bool, target: Target, node: Path)
    ensures (forall q: Path, t, u :: node < q && SameBut(t, u, q) ==>
               ReadAll(t, names, fails, target) == ReadAll(u, names, fails, target))
        <==> (forall i :: 0 <= i < |names| && !fails(i) && target(names[i]).Some? ==>
                !ReachesBelow(target(names[i]).value, node))
  {
    if forall i :: 0 <= i < |names| && !fails(i) && target(names[i]).Some? ==> !ReachesBelow(target(names[i]).value, node) {
      forall q: Path, t, u | node < q && SameBut(t, u, q)
        ensures ReadAll(t, names, fails, target) == ReadAll(u, names, fails, target)
      {
        forall i | 0 <= i < |names| && !fails(i) && target(names[i]).Some?
          ensures !Reaches(target(names[i]).value, q)
        {
          FartherBelow(target(names[i]).value, node, q);
        }
        UnreadIff(names, fails, target, q);
      }
    } else {
      var i :| 0 <= i < |names| && !fails(i) && target(names[i]).Some? && ReachesBelow(target(names[i]).value, node);
      var r := target(names[i]).value;
      var q := if node < r then r else node + [""];
      UnreadIff(names, fails, target, q);
      assert node < q && Reaches(r, q);
      var t, u :| SameBut(t, u, q) && ReadAll(t, names, fails, target) != ReadAll(u, names, fails, target);
    }
  }

  lemma FartherBelow(r: Path, node: Path, q: Path)
    requires node < q && !ReachesBelow(r, node)
    ensures !Reaches(r, q)
  {
    if r <= q {
      Comparable(r, q, node);
    }
  }

  // ---------------------------------------------------------------- the check on the spelled name

  lemma SegmentPrefix(n: string, p: string, x: string, y: string)
    requires '/' !in n && '/' !in p && x != "" && x[0] == '/' && (y == "" || y[0] == '/')
    ensures n + x <= p + y <==> n == p && x <= y
  {
    if n + x <= p + y {
      var k := if |n| < |p| then |n| else |p|;
      assert (n + x)[k] == (p + y)[k];
      assert |n| == |p|;
      assert (n + x)[..|n|] == n && (p + y)[..|n|] == p;
      assert (n + x)[|n|..] == x && (p + y)[|n|..] == y;
    }
    if n == p && x <= y {
      assert n + y == n + x + y[|x|..];
    }
  }

  /** One spelled name begins with another and a slash exactly if its path is below the other's. */
  lemma {:induction false} SpelledBelowIff(node: Path, p: Path)
    requires Plain(node) && Plain(p)
    ensures Join(node) + "/" <= Join(p) <==> node < p
    decreases |node|
  {
    if node != [] && p != [] {
      var x, y := Join(node[1..]) + "/", Join(p[1..]);
      assert Join(node) + "/" == "/" + (node[0] + x) && Join(p) == "/" + (p[0] + y);
      assert ("/" + (node[0] + x))[1..] == node[0] + x && ("/" + (p[0] + y))[1..] == p[0] + y;
      assert Join(node) + "/" <= Join(p) <==> node[0] + x <= p[0] + y by {
        if node[0] + x <= p[0] + y {
          assert p[0] + y == node[0] + x + (p[0] + y)[|node[0] + x|..];
        }
      }
      SegmentPrefix(node[0], p[0], x, y);
      SpelledBelowIff(node[1..], p[1..]);
      if node[0] == p[0] {
        TailRelation(node, p);
      }
    }
  }

  /**
   For an absolute name without empty segments, the check refuses exactly what is below the node's
   namespace. The namespace itself and what is above it pass, and so reach the node's parameters.
   */
  lemma CheckRefusesIff(node: Path, p: Path, whitelist: string -> bool)
    requires Plain(node) && Plain(p)
    ensures !Allowed(Join(p), Join(node) + "/", whitelist) <==> node < p || !whitelist(Join(p))
    ensures p <= node && |node| - |p| < 128 && whitelist(Join(p)) ==>
              Allowed(Join(p), Join(node) + "/", whitelist) && ReachesBelow(p, node)
  {
    SpelledBelowIff(node, p);
  }

  predicate Anything(name: string) {
    true
  }

  predicate Never(i: nat) {
    false
  }

  /** The target of a bridge with this node's path that permits everything else. */
  function PermissiveTarget(node: Path, namespace_: Path): Target {
    n => if Allowed(n, Join(node) + "/", Anything) then Resolve(namespace_, n) else None
  }

  /**
   An item for the node's own namespace: deleting it deletes every parameter below, and reading it
   shows those within reach, although the check refuses each of them by its own name.
   */
  lemma NamespaceIsAParameter(store: RosValue, node: Path, namespace_: Path, q: Path)
    requires Plain(node) && Plain(q) && node != [] && node < q
    ensures var target := PermissiveTarget(node, namespace_);
            && target(Join(q)) == None && target(Join(node)) == Some(node)
            && Get(SetAll(store, [Parameter(Join(node), NoType, None)], Never, target), q) == None
            && (|q| - |node| <= MAX_PARAM_DEPTH ==>
                exists t, u :: SameBut(t, u, q)
                  && ReadAll(t, [Join(node)], Never, target) != ReadAll(u, [Join(node)], Never, target))
  {
    var target := PermissiveTarget(node, namespace_);
    CheckRefusesIff(node, q, Anything);
    CheckRefusesIff(node, node, Anything);
    ResolveJoin(namespace_, node);
    assert target(Join(node)) == Some(node);
    var p := Parameter(Join(node), NoType, None);
    var acts := Actions([p], Never, target);
    assert acts[0] == ActionOf(p, Never(0), target) == Delete(node);
    LastEffectiveWins(store, acts, q, 0);
    if |q| - |node| <= MAX_PARAM_DEPTH {
      UnreadIff([Join(node)], Never, target, q);
      assert Reaches(target([Join(node)][0]).value, q);
    }
  }

  /** A relative name of a parameter below the node's namespace passes the check as well, and names it. */
  lemma RelativeNamePasses(node: Path, q: Path)
    requires Plain(node) && Plain(q) && node != [] && node < q && q[0][0] != '~'
    ensures var name := Join(q)[1..];
            PermissiveTarget(node, [])(name) == Some(q) && PermissiveTarget(node, [])(Join(q)) == None
  {
    var name := Join(q)[1..];
    CheckRefusesIff(node, q, Anything);
    assert name == q[0] + Join(q[1..]);
    assert name[0] == q[0][0] && name[0] != '/';
    assert (Join(node) + "/")[0] == '/';
    SplitJoin(q, "");
    assert Join(q)[0] == '/' && Split(Join(q), "") == [] + Split(name, "");
    assert [] + q == q && [] + Split(name, "") == Split(name, "");
  }
}
