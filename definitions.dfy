/** The container definitions of the loaded configuration (the `containers`
    mapping, in its key order) and the dependency node built from each. */
module Definitions {
  import opened Outcome

  /** One entry of the `containers` mapping: its key, its `link` list
      (empty when the key is absent) and its `image`. */
  datatype Definition = Definition(name: string, links: seq<string>, image: Option<string>)

  /** The mapping in definition order; its keys are distinct. */
  type Config = seq<Definition>

  /** A dependency node: a container name and the names it links to. */
  datatype Node = Node(name: string, deps: seq<string>)

  function Names(cfg: Config): seq<string>
  {
    seq(|cfg|, i requires 0 <= i < |cfg| => cfg[i].name)
  }

  predicate IsDefined(cfg: Config, name: string)
  {
    name in Names(cfg)
  }

  /** Every name of `s` is a defined container. */
  ghost predicate AllDefined(cfg: Config, s: seq<string>)
  {
    forall x :: x in s ==> IsDefined(cfg, x)
  }

  ghost predicate DistinctNames(cfg: Config)
  {
    forall i, j :: 0 <= i < j < |cfg| ==> cfg[i].name != cfg[j].name
  }

  /** The definition a name is bound to, or None (`getContainerConfig`). */
  function Lookup(cfg: Config, name: string): (r: Option<Definition>)
    ensures r.Some? <==> IsDefined(cfg, name)
    ensures r.Some? ==> r.value in cfg && r.value.name == name
  {
    if cfg == [] then None
    else if cfg[0].name == name then
      assert Names(cfg)[0] == name;
      Some(cfg[0])
    else
      assert Names(cfg) == [cfg[0].name] + Names(cfg[1..]);
      Lookup(cfg[1..], name)
  }

  /** The image named by a defined container (`getContainerImage`). */
  function Image(cfg: Config, name: string): Option<string>
    requires IsDefined(cfg, name)
  {
    Lookup(cfg, name).value.image
  }

  /** `link.partition(':')[0]`: the part of a link before its first colon. */
  function StripAlias(link: string): (r: string)
    ensures r <= link
    ensures ':' !in r
    ensures |r| < |link| ==> link[|r|] == ':'
    ensures ':' !in link ==> r == link
  {
    if link == [] || link[0] == ':' then []
    else [link[0]] + StripAlias(link[1..])
  }

  function StripAliases(links: seq<string>): seq<string>
  {
    seq(|links|, i requires 0 <= i < |links| => StripAlias(links[i]))
  }

  /** A link `name:alias` depends on `name`. */
  lemma StripAliasDropsAlias(name: string, alias: string)
    requires ':' !in name
    ensures StripAlias(name + ":" + alias) == name
  {
    var link := name + ":" + alias;
    var r := StripAlias(link);
    assert link[|name|] == ':';
    if |r| < |name| {
      assert false;
    } else if |r| > |name| {
      assert false;
    }
    assert r == link[..|r|];
    assert link[..|name|] == name;
  }

  /** The names a defined container depends on, in link order. */
  function Deps(cfg: Config, name: string): seq<string>
    requires IsDefined(cfg, name)
  {
    StripAliases(Lookup(cfg, name).value.links)
  }

  /** Every link target is a defined container. */
  ghost predicate LinksDefined(cfg: Config)
  {
    forall n, d :: IsDefined(cfg, n) && d in Deps(cfg, n) ==> IsDefined(cfg, d)
  }

  /** `rank` gives every defined container a number above those of its dependencies,
      so the link graph has no cycle. */
  ghost predicate Ranked(cfg: Config, rank: map<string, nat>)
  {
    forall n :: IsDefined(cfg, n) ==>
      n in rank && forall d :: d in Deps(cfg, n) ==> d in rank && rank[d] < rank[n]
  }

  /** The configurations the dependency resolver terminates on. */
  ghost predicate WellFormed(cfg: Config, rank: map<string, nat>)
  {
    DistinctNames(cfg) && LinksDefined(cfg) && Ranked(cfg, rank)
  }

  /** `getContainerDependencies`: the node of a defined container, its links with any alias removed. */
  method GetContainerDependencies(cfg: Config, container: string) returns (node: Node)
    requires IsDefined(cfg, container)
    ensures node.name == container
    ensures node.deps == Deps(cfg, container)
    ensures var links := Lookup(cfg, container).value.links;
      |node.deps| == |links| && forall i :: 0 <= i < |links| ==> node.deps[i] == StripAlias(links[i])
  {
    var config := Lookup(cfg, container).value;
    var deps: seq<string> := [];
    for i := 0 to |config.links|
      invariant |deps| == i
      invariant forall j :: 0 <= j < i ==> deps[j] == StripAlias(config.links[j])
    {
      deps := deps + [StripAlias(config.links[i])];
    }
    assert deps == StripAliases(config.links);
    node := Node(container, deps);
  }
}
