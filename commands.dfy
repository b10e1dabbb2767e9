/** The commands of `Core`: validating and ordering the requested containers,
    reading their live state, and planning the runtime calls each command
    makes. A command's plan is what `Runtime.Dispatch` issues; `recreate`
    issues its start phase only after its removal phase succeeded
    (`RunRecreate`). */
module Commands {
  import opened Outcome
  import opened Seqs
  import opened Definitions
  import opened Resolver
  import opened Runtime
  import opened Planner

  /** The containers a command works on: all defined ones, in resolver order, or the request as given. */
  function Requested(cfg: Config, ghost rank: map<string, nat>, containers: seq<string>, all: bool): seq<string>
    requires all ==> WellFormed(cfg, rank)
  {
    if all then DefinedContainers(cfg, rank) else containers
  }

  /** The failure for a request naming undefined containers: all of them, in request order. */
  ghost predicate Rejects<T>(cfg: Config, names: seq<string>, r: Result<T>)
  {
    r.Fail? && r.error.InvalidContainer? && Drops(r.error.missing, names, Names(cfg))
  }

  /** `readOrderedContainers`: the requested names in resolver order, or the names that are not defined. */
  method ReadOrderedContainers(cfg: Config, ghost rank: map<string, nat>, containers: seq<string>)
    returns (r: Result<seq<string>>)
    requires WellFormed(cfg, rank)
    ensures r.Fail? <==> !AllDefined(cfg, containers)
    ensures r.Fail? ==> Rejects(cfg, containers, r)
    ensures r.OK? ==> Keeps(r.value, DefinedContainers(cfg, rank), containers) && NoDup(r.value)
    ensures r.OK? ==> forall c :: c in r.value <==> c in containers
  {
    var defined := GetDefinedContainers(cfg, rank);
    var missing := Drop(containers, defined);
    var ordered := Keep(defined, containers);
    DropsWithinSame(missing, containers, defined, Names(cfg));
    DropsNothing(missing, containers, defined);
    KeepsElements(ordered, defined, containers);
    if missing != [] {
      r := Fail(InvalidContainer(missing));
    } else {
      r := OK(ordered);
    }
  }

  /** `__readStates`: validation first; only a valid request reaches the runtime. */
  method ReadStates(cfg: Config, ghost rank: map<string, nat>, live: Result<State>, containers: seq<string>)
    returns (r: Result<State>)
    requires WellFormed(cfg, rank)
    ensures !AllDefined(cfg, containers) ==> Rejects(cfg, containers, r)
    ensures AllDefined(cfg, containers) && live.Fail? ==> r == Fail(live.error)
    ensures AllDefined(cfg, containers) && live.OK? ==> r == OK(Observe(live.value, containers))
  {
    var ordered := ReadOrderedContainers(cfg, rank, containers);
    if ordered.Fail? {
      return Fail(ordered.error);
    }
    if live.Fail? {
      return Fail(live.error);
    }
    r := OK(Observe(live.value, ordered.value));
    assert Observe(live.value, ordered.value) == Observe(live.value, containers);
  }

  /** `__command`: the given per-container function over the request as given
      (or all defined containers), against the state read for it. */
  method PlanCommand(cmd: Command, cfg: Config, ghost rank: map<string, nat>, live: Result<State>,
                 containers: seq<string>, all: bool)
    returns (r: Result<seq<Op>>)
    requires WellFormed(cfg, rank)
    ensures var targets := Requested(cfg, rank, containers, all);
      && (!AllDefined(cfg, targets) ==> Rejects(cfg, targets, r))
      && (AllDefined(cfg, targets) && live.Fail? ==> r == Fail(live.error))
      && (AllDefined(cfg, targets) && live.OK? ==>
            r == OK(Plan(cmd, cfg, Observe(live.value, targets), targets)))
  {
    var targets := containers;
    if all {
      targets := GetDefinedContainers(cfg, rank);
    }
    var state := ReadStates(cfg, rank, live, targets);
    if state.Fail? {
      return Fail(state.error);
    }
    var ops: seq<Op>;
    match cmd {
      case StartCommand =>
        ops := PlanStart(cfg, state.value, targets);
      case StopCommand(time) =>
        ops := PlanStop(cfg, state.value, targets, time);
      case RemoveCommand(force, time) =>
        ops := PlanRemove(cfg, state.value, targets, force, time);
      case RestartCommand(time) =>
        ops := PlanRestart(cfg, state.value, targets, time);
    }
    r := OK(ops);
  }

  /** The state read for `targets` agrees with the live state on each of them. */
  lemma ObservedPhases(live: State, targets: seq<string>)
    ensures forall c :: c in targets ==> PhaseOf(Observe(live, targets), c) == PhaseOf(live, c)
  {
  }

  /** After a planned command has run, each requested container is in the
      command's expected phase and no other container has changed. */
  lemma CommandReaches(cmd: Command, cfg: Config, live: State, targets: seq<string>)
    ensures Reached(cmd, live, Apply(live, Plan(cmd, cfg, Observe(live, targets), targets)), targets)
  {
    ObservedPhases(live, targets);
    PlanReachesExpected(cmd, cfg, Observe(live, targets), live, targets);
  }

  method Start(cfg: Config, ghost rank: map<string, nat>, live: Result<State>, containers: seq<string>, all: bool)
    returns (r: Result<seq<Op>>)
    requires WellFormed(cfg, rank)
    ensures var targets := Requested(cfg, rank, containers, all);
      && (!AllDefined(cfg, targets) ==> Rejects(cfg, targets, r))
      && (AllDefined(cfg, targets) && live.Fail? ==> r == Fail(live.error))
      && (AllDefined(cfg, targets) && live.OK? ==> r.OK?)
      && (r.OK? ==>
            && (forall c :: c in targets ==> PhaseOf(Apply(live.value, r.value), c) == Running)
            && (forall c :: c !in targets ==> Get(Apply(live.value, r.value), c) == Get(live.value, c))
            && (forall op :: op in r.value ==> op.container in targets && PhaseOf(live.value, op.container) != Running))
    ensures r.OK? && NoDup(Requested(cfg, rank, containers, all)) ==> PlanLegal(live.value, r.value)
  {
    r := PlanCommand(StartCommand, cfg, rank, live, containers, all);
    if r.OK? {
      var targets := Requested(cfg, rank, containers, all);
      CommandReaches(StartCommand, cfg, live.value, targets);
      ObservedPhases(live.value, targets);
      PlanFollowsRequest(StartCommand, cfg, Observe(live.value, targets), targets);
      if NoDup(targets) {
        PlanIsLegal(StartCommand, cfg, Observe(live.value, targets), live.value, targets);
      }
    }
  }

  method Stop(cfg: Config, ghost rank: map<string, nat>, live: Result<State>, containers: seq<string>, all: bool,
              time: nat)
    returns (r: Result<seq<Op>>)
    requires WellFormed(cfg, rank)
    ensures var targets := Requested(cfg, rank, containers, all);
      && (!AllDefined(cfg, targets) ==> Rejects(cfg, targets, r))
      && (AllDefined(cfg, targets) && live.Fail? ==> r == Fail(live.error))
      && (AllDefined(cfg, targets) && live.OK? ==> r.OK?)
      && (r.OK? ==>
            && (forall c :: c in targets ==>
                  PhaseOf(Apply(live.value, r.value), c) == if c in live.value then Stopped else Absent)
            && (forall c :: c !in targets ==> Get(Apply(live.value, r.value), c) == Get(live.value, c))
            && (forall op :: op in r.value ==>
                  op.container in targets && PhaseOf(live.value, op.container) == Running && op.actions == [Runtime.Stop(time)]))
    ensures r.OK? && NoDup(Requested(cfg, rank, containers, all)) ==> PlanLegal(live.value, r.value)
  {
    r := PlanCommand(StopCommand(time), cfg, rank, live, containers, all);
    if r.OK? {
      var targets := Requested(cfg, rank, containers, all);
      CommandReaches(StopCommand(time), cfg, live.value, targets);
      ObservedPhases(live.value, targets);
      PlanFollowsRequest(StopCommand(time), cfg, Observe(live.value, targets), targets);
      if NoDup(targets) {
        PlanIsLegal(StopCommand(time), cfg, Observe(live.value, targets), live.value, targets);
      }
    }
  }

  method Remove(cfg: Config, ghost rank: map<string, nat>, live: Result<State>, containers: seq<string>, all: bool,
                time: nat, force: bool)
    returns (r: Result<seq<Op>>)
    requires WellFormed(cfg, rank)
    ensures var targets := Requested(cfg, rank, containers, all);
      && (!AllDefined(cfg, targets) ==> Rejects(cfg, targets, r))
      && (AllDefined(cfg, targets) && live.Fail? ==> r == Fail(live.error))
      && (AllDefined(cfg, targets) && live.OK? ==> r.OK?)
      && (r.OK? ==>
            && (forall c :: c in targets ==>
                  PhaseOf(Apply(live.value, r.value), c) ==
                    if !force && PhaseOf(live.value, c) == Running then Running else Absent)
            && (forall c :: c !in targets ==> Get(Apply(live.value, r.value), c) == Get(live.value, c))
            && (forall op :: op in r.value ==>
                  op.container in targets && op.container in live.value && (force || PhaseOf(live.value, op.container) != Running)))
    ensures r.OK? && NoDup(Requested(cfg, rank, containers, all)) ==> PlanLegal(live.value, r.value)
  {
    r := PlanCommand(RemoveCommand(force, time), cfg, rank, live, containers, all);
    if r.OK? {
      var targets := Requested(cfg, rank, containers, all);
      CommandReaches(RemoveCommand(force, time), cfg, live.value, targets);
      ObservedPhases(live.value, targets);
      PlanFollowsRequest(RemoveCommand(force, time), cfg, Observe(live.value, targets), targets);
      if NoDup(targets) {
        PlanIsLegal(RemoveCommand(force, time), cfg, Observe(live.value, targets), live.value, targets);
      }
    }
  }

  method Restart(cfg: Config, ghost rank: map<string, nat>, live: Result<State>, containers: seq<string>, all: bool,
                 time: nat)
    returns (r: Result<seq<Op>>)
    requires WellFormed(cfg, rank)
    ensures var targets := Requested(cfg, rank, containers, all);
      && (!AllDefined(cfg, targets) ==> Rejects(cfg, targets, r))
      && (AllDefined(cfg, targets) && live.Fail? ==> r == Fail(live.error))
      && (AllDefined(cfg, targets) && live.OK? ==> r.OK?)
      && (r.OK? ==>
            && (forall c :: c in targets ==>
                  PhaseOf(Apply(live.value, r.value), c) == if c in live.value then Running else Absent)
            && (forall c :: c !in targets ==> Get(Apply(live.value, r.value), c) == Get(live.value, c))
            && (forall op :: op in r.value ==> op.container in targets && op.container in live.value))
    ensures r.OK? && NoDup(Requested(cfg, rank, containers, all)) ==> PlanLegal(live.value, r.value)
  {
    r := PlanCommand(RestartCommand(time), cfg, rank, live, containers, all);
    if r.OK? {
      var targets := Requested(cfg, rank, containers, all);
      CommandReaches(RestartCommand(time), cfg, live.value, targets);
      ObservedPhases(live.value, targets);
      PlanFollowsRequest(RestartCommand(time), cfg, Observe(live.value, targets), targets);
      if NoDup(targets) {
        PlanIsLegal(RestartCommand(time), cfg, Observe(live.value, targets), live.value, targets);
      }
    }
  }

  /** `status`: one row per requested container (all defined ones when none is named). */
  method Status(cfg: Config, ghost rank: map<string, nat>, live: Result<State>, containers: seq<string>)
    returns (r: Result<seq<Row>>)
    requires WellFormed(cfg, rank)
    ensures var targets := if containers == [] then DefinedContainers(cfg, rank) else containers;
      && (!AllDefined(cfg, targets) ==> Rejects(cfg, targets, r))
      && (AllDefined(cfg, targets) && live.Fail? ==> r == Fail(live.error))
      && (AllDefined(cfg, targets) && live.OK? ==>
            && r.OK? && |r.value| == |targets|
            && forall i :: 0 <= i < |targets| ==> r.value[i] == RowOf(targets[i], StatusOf(live.value, targets[i])))
  {
    var targets := containers;
    if containers == [] {
      targets := GetDefinedContainers(cfg, rank);
    }
    var state := ReadStates(cfg, rank, live, targets);
    if state.Fail? {
      return Fail(state.error);
    }
    var table := StatusTable(state.value, targets);
    r := OK(table);
  }

  /** `recreate`: force-remove the request, then start it against the state
      the removals left, so every requested container is created anew. */
  method Recreate(cfg: Config, ghost rank: map<string, nat>, live: Result<State>, containers: seq<string>, all: bool,
                  time: nat)
    returns (r: Result<seq<Op>>)
    requires WellFormed(cfg, rank)
    ensures var targets := Requested(cfg, rank, containers, all);
      && (!AllDefined(cfg, targets) ==> Rejects(cfg, targets, r))
      && (AllDefined(cfg, targets) && live.Fail? ==> r == Fail(live.error))
      && (AllDefined(cfg, targets) && live.OK? ==> r.OK?)
      && (r.OK? ==>
            && (forall c :: c in targets ==> PhaseOf(Apply(live.value, r.value), c) == Running)
            && (forall c :: c !in targets ==> Get(Apply(live.value, r.value), c) == Get(live.value, c))
            && (forall c :: c in targets ==> Op(c, [Create(Lookup(cfg, c)), Runtime.Start]) in r.value))
    ensures r.OK? && NoDup(Requested(cfg, rank, containers, all)) ==> PlanLegal(live.value, r.value)
  {
    var targets := containers;
    if all {
      targets := GetDefinedContainers(cfg, rank);
    }
    var state := ReadStates(cfg, rank, live, targets);
    if state.Fail? {
      return Fail(state.error);
    }
    var removal := PlanRemove(cfg, state.value, targets, true, time);
    // The second state read sees the runtime after every removal succeeded.
    var reread := ReadStates(cfg, rank, OK(Apply(live.value, removal)), targets);
    var starts := PlanStart(cfg, reread.value, targets);
    RecreateReaches(cfg, live.value, targets, time);
    if NoDup(targets) {
      RecreateLegal(cfg, live.value, targets, time);
    }
    r := OK(removal + starts);
  }

  /** The removal phase of `recreate` leaves every requested container absent,
      so the start phase creates and starts each of them. */
  lemma RecreateReaches(cfg: Config, live: State, targets: seq<string>, time: nat)
    ensures var removal := Plan(RemoveCommand(true, time), cfg, Observe(live, targets), targets);
      var removed := Apply(live, removal);
      var starts := Plan(StartCommand, cfg, Observe(removed, targets), targets);
      && (forall c :: c in targets ==> PhaseOf(Apply(live, removal + starts), c) == Running)
      && (forall c :: c !in targets ==> Get(Apply(live, removal + starts), c) == Get(live, c))
      && (forall c :: c in targets ==> Op(c, [Create(Lookup(cfg, c)), Runtime.Start]) in removal + starts)
  {
    var removal := Plan(RemoveCommand(true, time), cfg, Observe(live, targets), targets);
    var removed := Apply(live, removal);
    var reread := Observe(removed, targets);
    var starts := Plan(StartCommand, cfg, reread, targets);
    CommandReaches(RemoveCommand(true, time), cfg, live, targets);
    CommandReaches(StartCommand, cfg, removed, targets);
    PlanFollowsRequest(StartCommand, cfg, reread, targets);
    ApplyConcat(live, removal, starts);
    forall c | c in targets
      ensures Op(c, [Create(Lookup(cfg, c)), Runtime.Start]) in removal + starts
    {
      assert PhaseOf(removed, c) == Absent;
      assert c !in reread;
      assert Op(c, [Create(Lookup(cfg, c)), Runtime.Start]) in starts;
    }
  }

  lemma RecreateLegal(cfg: Config, live: State, targets: seq<string>, time: nat)
    requires NoDup(targets)
    ensures var removal := Plan(RemoveCommand(true, time), cfg, Observe(live, targets), targets);
      var starts := Plan(StartCommand, cfg, Observe(Apply(live, removal), targets), targets);
      PlanLegal(live, removal + starts)
  {
    var removal := Plan(RemoveCommand(true, time), cfg, Observe(live, targets), targets);
    var removed := Apply(live, removal);
    ObservedPhases(live, targets);
    ObservedPhases(removed, targets);
    PlanIsLegal(RemoveCommand(true, time), cfg, Observe(live, targets), live, targets);
    PlanIsLegal(StartCommand, cfg, Observe(removed, targets), removed, targets);
    PlanLegalConcat(live, removal, Plan(StartCommand, cfg, Observe(removed, targets), targets));
  }

  /** `recreate` against the runtime: the removal phase is issued first; when
      one of its ops fails the chain stops there, with no second state read
      and no start call; otherwise the start phase is planned against the
      state the removals left and issued from the next call number on. */
  function RunRecreate(cfg: Config, live: State, targets: seq<string>, time: nat, reply: Replies)
    : (r: (State, Result<seq<()>>))
    ensures var removal := Plan(RemoveCommand(true, time), cfg, Observe(live, targets), targets);
      Dispatch(live, removal, reply).1.Fail? ==> r == Dispatch(live, removal, reply)
  {
    var removal := Plan(RemoveCommand(true, time), cfg, Observe(live, targets), targets);
    var (s1, k1, outs1) := RunOps(live, removal, 0, reply);
    match Sequence(outs1)
    case Fail(e) => (s1, Fail(e))
    case OK(_) =>
      var starts := Plan(StartCommand, cfg, Observe(s1, targets), targets);
      var (s2, _, outs2) := RunOps(s1, starts, k1, reply);
      (s2, Sequence(outs2))
  }

  /** When the runtime accepts every call, running `recreate` in two phases
      issues exactly the plan `Recreate` returns and ends in its state. */
  lemma RunRecreateSucceeds(cfg: Config, live: State, targets: seq<string>, time: nat, reply: Replies)
    requires forall j :: reply(j).None?
    ensures var removal := Plan(RemoveCommand(true, time), cfg, Observe(live, targets), targets);
      var starts := Plan(StartCommand, cfg, Observe(Apply(live, removal), targets), targets);
      && RunRecreate(cfg, live, targets, time, reply).0 == Apply(live, removal + starts)
      && RunRecreate(cfg, live, targets, time, reply).1.OK?
      && |RunRecreate(cfg, live, targets, time, reply).1.value| == |starts|
  {
    var removal := Plan(RemoveCommand(true, time), cfg, Observe(live, targets), targets);
    RunOpsSucceeds(live, removal, 0, reply);
    var (s1, k1, outs1) := RunOps(live, removal, 0, reply);
    var starts := Plan(StartCommand, cfg, Observe(s1, targets), targets);
    RunOpsSucceeds(s1, starts, k1, reply);
    ApplyConcat(live, removal, starts);
  }

  /** A stopped container whose removal the runtime refuses is left as it
      was: it is neither created anew nor started. */
  lemma RecreateRefusedRemoval(time: nat)
    ensures var cfg := [Definition("web", [], None)];
      var live := map["web" := Runtime.Status("c1", "", "", None, false, "")];
      var reply := (j: nat) => if j == 0 then Some("refused") else None;
      RunRecreate(cfg, live, ["web"], time, reply) == (live, Fail(RuntimeFailure("refused")))
  {
    var cfg := [Definition("web", [], None)];
    var live := map["web" := Runtime.Status("c1", "", "", None, false, "")];
    var reply := (j: nat) => if j == 0 then Some("refused") else None;
    var removal := Plan(RemoveCommand(true, time), cfg, Observe(live, ["web"]), ["web"]);
    assert Observe(live, ["web"]) == live;
    assert ["web"][..0] == [];
    assert removal == [Op("web", [Runtime.Remove])];
    assert RunOps(live, removal, 0, reply).2 == [Fail(RuntimeFailure("refused"))];
  }

  /** `reset`: force-remove every container the runtime says this tool manages,
      whether or not the configuration still defines it. */
  method Reset(cfg: Config, managed: Result<seq<string>>, live: Result<State>, time: nat)
    returns (r: Result<seq<Op>>)
    ensures managed.Fail? ==> r == Fail(managed.error)
    ensures managed.OK? && live.Fail? ==> r == Fail(live.error)
    ensures managed.OK? && live.OK? ==> r.OK?
    ensures r.OK? ==>
      && (forall c :: c in managed.value ==> c !in Apply(live.value, r.value))
      && (forall c :: c !in managed.value ==> Get(Apply(live.value, r.value), c) == Get(live.value, c))
    ensures r.OK? && NoDup(managed.value) ==> PlanLegal(live.value, r.value)
  {
    if managed.Fail? {
      return Fail(managed.error);
    }
    if live.Fail? {
      return Fail(live.error);
    }
    var state := Observe(live.value, managed.value);
    var ops := PlanRemove(cfg, state, managed.value, true, time);
    CommandReaches(RemoveCommand(true, time), cfg, live.value, managed.value);
    if NoDup(managed.value) {
      ObservedPhases(live.value, managed.value);
      PlanIsLegal(RemoveCommand(true, time), cfg, state, live.value, managed.value);
    }
    r := OK(ops);
  }

  /** `pull`: one Pull of its image per requested container, in request order,
      with no validation and no state read. */
  method Pull(cfg: Config, ghost rank: map<string, nat>, containers: seq<string>, all: bool)
    returns (plan: seq<Op>)
    requires all ==> WellFormed(cfg, rank)
    requires !all ==> AllDefined(cfg, containers)
    ensures var targets := Requested(cfg, rank, containers, all);
      && |plan| == |targets|
      && forall i :: 0 <= i < |targets| ==> plan[i] == Op(targets[i], [Runtime.Pull(Image(cfg, targets[i]))])
    ensures forall s: State :: Apply(s, plan) == s
  {
    var targets := containers;
    if all {
      targets := GetDefinedContainers(cfg, rank);
    }
    plan := seq(|targets|, i requires 0 <= i < |targets| => Op(targets[i], [Runtime.Pull(Image(cfg, targets[i]))]));
    forall s: State
      ensures Apply(s, plan) == s
    {
      ApplyPulls(s, plan);
    }
  }
}
