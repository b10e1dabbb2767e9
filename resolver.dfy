/** The dependency resolver of `getDefinedContainers`: a depth-first walk
    over the containers in definition order that appends every container
    to a shared `resolved` list after its dependencies. */
module Resolver {
  import opened Seqs
  import opened Definitions

  /** Every name of `s` is defined and each of its dependencies occurs earlier in `s`. */
  ghost predicate DepsFirst(cfg: Config, s: seq<string>)
  {
    AllDefined(cfg, s) &&
    forall k :: 0 <= k < |s| ==> forall d :: d in Deps(cfg, s[k]) ==> d in s[..k]
  }

  lemma DepsRanked(cfg: Config, rank: map<string, nat>, name: string)
    requires WellFormed(cfg, rank) && IsDefined(cfg, name)
    ensures name in rank
    ensures forall d :: d in Deps(cfg, name) ==> IsDefined(cfg, d) && d in rank && rank[d] < rank[name]
  {
  }

  /** Appending a name whose dependencies are all present keeps the order valid. */
  lemma AppendKeepsDepsFirst(cfg: Config, s: seq<string>, name: string)
    requires IsDefined(cfg, name)
    requires forall d :: d in Deps(cfg, name) ==> d in s
    ensures DepsFirst(cfg, s) ==> DepsFirst(cfg, s + [name])
  {
    if DepsFirst(cfg, s) {
      var t := s + [name];
      forall k | 0 <= k < |t|
        ensures forall d :: d in Deps(cfg, t[k]) ==> d in t[..k]
      {
        if k < |s| {
          assert t[k] == s[k] && t[..k] == s[..k];
        } else {
          assert t[..k] == s;
        }
      }
    }
  }

  /** The `for dep in node['deps']` loop: visits each dependency not yet resolved. */
  function VisitDeps(cfg: Config, ghost rank: map<string, nat>, ghost bound: nat,
                     deps: seq<string>, resolved: seq<string>): (r: seq<string>)
    requires WellFormed(cfg, rank)
    requires forall d :: d in deps ==> IsDefined(cfg, d) && d in rank && rank[d] < bound
    ensures resolved <= r
    ensures forall d :: d in deps ==> d in r
    ensures NoDup(resolved) ==> NoDup(r)
    ensures DepsFirst(cfg, resolved) ==> DepsFirst(cfg, r)
    decreases bound, |deps|
  {
    if deps == [] then resolved
    else
      var next := if deps[0] in resolved then resolved else Visit(cfg, rank, deps[0], resolved);
      assert forall d :: d in deps[1..] ==> d in deps;
      var r := VisitDeps(cfg, rank, bound, deps[1..], next);
      assert deps[0] in r by {
        assert next == r[..|next|];
      }
      assert forall d :: d in deps ==> d == deps[0] || d in deps[1..];
      r
  }

  /** `resolveDependencies(node, resolved)`: the dependencies first, then the node itself if absent. */
  function Visit(cfg: Config, ghost rank: map<string, nat>, name: string, resolved: seq<string>): (r: seq<string>)
    requires WellFormed(cfg, rank) && IsDefined(cfg, name)
    ensures resolved <= r
    ensures name in r
    ensures NoDup(resolved) ==> NoDup(r)
    ensures DepsFirst(cfg, resolved) ==> DepsFirst(cfg, r)
    decreases rank[name], |Deps(cfg, name)| + 1
  {
    DepsRanked(cfg, rank, name);
    var r := VisitDeps(cfg, rank, rank[name], Deps(cfg, name), resolved);
    if name in r then r
    else
      AppendKeepsDepsFirst(cfg, r, name);
      r + [name]
  }

  /** `for node in graph: resolveDependencies(node, resolved)` */
  function ResolveAll(cfg: Config, ghost rank: map<string, nat>, names: seq<string>, resolved: seq<string>): (r: seq<string>)
    requires WellFormed(cfg, rank)
    requires forall n :: n in names ==> IsDefined(cfg, n)
    ensures resolved <= r
    ensures forall n :: n in names ==> n in r
    ensures NoDup(resolved) ==> NoDup(r)
    ensures DepsFirst(cfg, resolved) ==> DepsFirst(cfg, r)
    decreases |names|
  {
    if names == [] then resolved
    else
      var next := Visit(cfg, rank, names[0], resolved);
      assert forall n :: n in names[1..] ==> n in names;
      var r := ResolveAll(cfg, rank, names[1..], next);
      assert names[0] in r by {
        assert next == r[..|next|];
      }
      assert forall n :: n in names ==> n == names[0] || n in names[1..];
      r
  }

  /** The execution order of all defined containers. */
  function DefinedContainers(cfg: Config, ghost rank: map<string, nat>): (r: seq<string>)
    requires WellFormed(cfg, rank)
    ensures NoDup(r)
    ensures forall n :: n in r <==> IsDefined(cfg, n)
    ensures multiset(r) == multiset(Names(cfg))
    ensures DepsFirst(cfg, r)
  {
    var r := ResolveAll(cfg, rank, Names(cfg), []);
    assert NoDup(Names(cfg));
    SameElementsPermutation(r, Names(cfg));
    r
  }

  /** The recursive `resolveDependencies`, appending to the shared list it is given. */
  method ResolveDependencies(cfg: Config, ghost rank: map<string, nat>, node: Node, resolved: seq<string>)
    returns (r: seq<string>)
    requires WellFormed(cfg, rank) && IsDefined(cfg, node.name)
    requires node.deps == Deps(cfg, node.name)
    ensures r == Visit(cfg, rank, node.name, resolved)
    decreases rank[node.name]
  {
    DepsRanked(cfg, rank, node.name);
    ghost var bound := rank[node.name];
    r := resolved;
    for i := 0 to |node.deps|
      invariant forall d :: d in node.deps[i..] ==> d in node.deps
      invariant VisitDeps(cfg, rank, bound, node.deps[i..], r) == VisitDeps(cfg, rank, bound, node.deps, resolved)
    {
      assert node.deps[i..][1..] == node.deps[i + 1..];
      var depnode := GetContainerDependencies(cfg, node.deps[i]);
      if depnode.name !in r {
        r := ResolveDependencies(cfg, rank, depnode, r);
      }
    }
    if node.name !in r {
      r := r + [node.name];
    }
  }

  /** `getDefinedContainers`: builds a node per defined container, then resolves them in order. */
  method GetDefinedContainers(cfg: Config, ghost rank: map<string, nat>) returns (resolved: seq<string>)
    requires WellFormed(cfg, rank)
    ensures resolved == DefinedContainers(cfg, rank)
  {
    var graph: seq<Node> := [];
    for i := 0 to |cfg|
      invariant |graph| == i
      invariant forall j :: 0 <= j < i ==> graph[j] == Node(Names(cfg)[j], Deps(cfg, Names(cfg)[j]))
    {
      assert Names(cfg)[i] == cfg[i].name;
      var node := GetContainerDependencies(cfg, cfg[i].name);
      graph := graph + [node];
    }
    resolved := [];
    for i := 0 to |graph|
      invariant forall n :: n in Names(cfg)[i..] ==> IsDefined(cfg, n)
      invariant ResolveAll(cfg, rank, Names(cfg)[i..], resolved) == DefinedContainers(cfg, rank)
    {
      assert Names(cfg)[i..][1..] == Names(cfg)[i + 1..];
      resolved := ResolveDependencies(cfg, rank, graph[i], resolved);
    }
  }

  lemma {:induction false} ResolveAllNoLinks(cfg: Config, rank: map<string, nat>, names: seq<string>,
                                             resolved: seq<string>)
    requires WellFormed(cfg, rank)
    requires forall n :: n in names ==> IsDefined(cfg, n) && Deps(cfg, n) == []
    requires NoDup(resolved + names)
    ensures ResolveAll(cfg, rank, names, resolved) == resolved + names
    decreases |names|
  {
    if names != [] {
      var n := names[0];
      assert (resolved + names)[|resolved|] == n;
      assert forall i :: 0 <= i < |resolved| ==> resolved[i] == (resolved + names)[i];
      assert n !in resolved;
      assert Visit(cfg, rank, n, resolved) == resolved + [n];
      assert (resolved + [n]) + names[1..] == resolved + names;
      assert forall m :: m in names[1..] ==> m in names;
      ResolveAllNoLinks(cfg, rank, names[1..], resolved + [n]);
    }
  }

  /** Without links the execution order is the definition order. */
  lemma NoLinksKeepDefinitionOrder(cfg: Config, rank: map<string, nat>)
    requires WellFormed(cfg, rank)
    requires forall i :: 0 <= i < |cfg| ==> cfg[i].links == []
    ensures DefinedContainers(cfg, rank) == Names(cfg)
  {
    forall n | IsDefined(cfg, n)
      ensures Deps(cfg, n) == []
    {
      var d := Lookup(cfg, n).value;
      assert d.links == [];
    }
    assert [] + Names(cfg) == Names(cfg);
    ResolveAllNoLinks(cfg, rank, Names(cfg), []);
  }
}
