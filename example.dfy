/** A worked resolver example: A links to B under an alias, C links to A. */
module ResolverExample {
  import opened Outcome
  import opened Seqs
  import opened Definitions
  import opened Resolver

  const EXAMPLE: Config := [
    Definition("A", ["B:b"], None),
    Definition("B", [], None),
    Definition("C", ["A"], None)
  ]

  const EXAMPLE_RANK: map<string, nat> := map["A" := 1, "B" := 0, "C" := 2]

  lemma ExampleDeps()
    ensures Names(EXAMPLE) == ["A", "B", "C"]
    ensures Deps(EXAMPLE, "A") == ["B"] && Deps(EXAMPLE, "B") == [] && Deps(EXAMPLE, "C") == ["A"]
  {
    assert Names(EXAMPLE) == ["A", "B", "C"];
    StripAliasDropsAlias("B", "b");
    assert "B" + ":" + "b" == "B:b";
    assert StripAlias("A") == "A";
  }

  lemma ExampleWellFormed()
    ensures WellFormed(EXAMPLE, EXAMPLE_RANK)
  {
    ExampleDeps();
    assert forall n :: IsDefined(EXAMPLE, n) <==> n == "A" || n == "B" || n == "C";
  }

  lemma ExampleVisits()
    requires WellFormed(EXAMPLE, EXAMPLE_RANK) && Names(EXAMPLE) == ["A", "B", "C"]
    ensures Visit(EXAMPLE, EXAMPLE_RANK, "A", []) == ["B", "A"]
    ensures Visit(EXAMPLE, EXAMPLE_RANK, "B", ["B", "A"]) == ["B", "A"]
    ensures Visit(EXAMPLE, EXAMPLE_RANK, "C", ["B", "A"]) == ["B", "A", "C"]
  {
    ExampleDeps();
    assert Visit(EXAMPLE, EXAMPLE_RANK, "B", []) == ["B"];
    assert VisitDeps(EXAMPLE, EXAMPLE_RANK, 1, ["B"], []) == ["B"];
    assert VisitDeps(EXAMPLE, EXAMPLE_RANK, 2, ["A"], ["B", "A"]) == ["B", "A"];
  }

  /** B is resolved before A, which is resolved before C. */
  lemma ExampleOrder()
    ensures WellFormed(EXAMPLE, EXAMPLE_RANK)
    ensures DefinedContainers(EXAMPLE, EXAMPLE_RANK) == ["B", "A", "C"]
  {
    ExampleWellFormed();
    ExampleDeps();
    ExampleVisits();
    assert ResolveAll(EXAMPLE, EXAMPLE_RANK, ["C"], ["B", "A"]) == ["B", "A", "C"];
    assert ResolveAll(EXAMPLE, EXAMPLE_RANK, ["B", "C"], ["B", "A"]) == ["B", "A", "C"];
  }
}
