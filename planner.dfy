/** The per-command decision tables of `__start`, `__stop`, `__remove`,
    `__restart` and `__status`: for each requested container, in request
    order, what the live state calls for. */
module Planner {
  import opened Outcome
  import opened Seqs
  import opened Definitions
  import opened Runtime

  /** The per-container functions `__command` can be given, with their options. */
  datatype Command =
    | StartCommand
    | StopCommand(time: nat)
    | RemoveCommand(force: bool, time: nat)
    | RestartCommand(time: nat)

  /** The calls one container gets; none when the command only logs for it. */
  function Decide(cmd: Command, cfg: Config, state: State, c: string): seq<Action>
  {
    match cmd
    case StartCommand =>
      if c !in state then [Create(Lookup(cfg, c)), Start]
      else if !state[c].running then [Start]
      else []                                   // already running: a warning
    case StopCommand(time) =>
      if c !in state then []                    // does not exist: a warning
      else if state[c].running then [Stop(time)]
      else []                                   // not running: a warning
    case RemoveCommand(force, time) =>
      if c in state then
        if state[c].running then
          if !force then []                     // running without force: logged as an error
          else [Stop(time), Remove]
        else [Remove]
      else []
    case RestartCommand(time) =>
      if c !in state then []                    // does not exist: logged as an error
      else if state[c].running then [Stop(time), Start]
      else [Start]
  }

  function OpsFor(cmd: Command, cfg: Config, state: State, c: string): seq<Op>
  {
    var actions := Decide(cmd, cfg, state, c);
    if actions == [] then [] else [Op(c, actions)]
  }

  /** The `ops` list the command's loop builds over `containers`. */
  function Plan(cmd: Command, cfg: Config, state: State, containers: seq<string>): seq<Op>
    decreases |containers|
  {
    if containers == [] then []
    else
      var n := |containers| - 1;
      Plan(cmd, cfg, state, containers[..n]) + OpsFor(cmd, cfg, state, containers[n])
  }

  /** Where each command is meant to leave a container, given where it was. */
  function Expected(cmd: Command, p: Phase): Phase
  {
    match cmd
    case StartCommand => Running
    case StopCommand(_) => if p == Running then Stopped else p
    case RemoveCommand(force, _) => if p == Running && !force then Running else Absent
    case RestartCommand(_) => if p == Absent then Absent else Running
  }

  /** A container's calls lead it to the expected phase, both from its phase in
      the state the decision was taken on and from that expected phase (a
      container requested twice gets its calls twice). */
  lemma OpsReachExpected(cmd: Command, cfg: Config, state: State, c: string, t: State)
    requires PhaseOf(t, c) == PhaseOf(state, c) || PhaseOf(t, c) == Expected(cmd, PhaseOf(state, c))
    ensures PhaseOf(Apply(t, OpsFor(cmd, cfg, state, c)), c) == Expected(cmd, PhaseOf(state, c))
  {
    var actions := Decide(cmd, cfg, state, c);
    if actions != [] {
      assert Apply(t, OpsFor(cmd, cfg, state, c)) == ApplyActions(t, c, actions);
      var t1 := Step(t, c, actions[0]);
      if |actions| == 2 {
        assert ApplyActions(t, c, actions) == ApplyActions(t1, c, actions[1..]);
        assert actions[1..][0] == actions[1] && actions[1..][1..] == [];
        assert ApplyActions(t1, c, actions[1..]) == Step(t1, c, actions[1]);
      } else {
        assert ApplyActions(t, c, actions) == t1;
      }
    }
  }

  /** `after` holds every container of `containers` in its expected phase and
      every other container as `live` had it. */
  ghost predicate Reached(cmd: Command, live: State, after: State, containers: seq<string>)
  {
    (forall c :: c in containers ==> PhaseOf(after, c) == Expected(cmd, PhaseOf(live, c))) &&
    (forall c :: c !in containers ==> Get(after, c) == Get(live, c))
  }

  lemma ReachedExtend(cmd: Command, cfg: Config, state: State, live: State, mid: State,
                      init: seq<string>, last: string)
    requires Reached(cmd, live, mid, init)
    requires PhaseOf(state, last) == PhaseOf(live, last)
    ensures Reached(cmd, live, Apply(mid, OpsFor(cmd, cfg, state, last)), init + [last])
  {
    var ops := OpsFor(cmd, cfg, state, last);
    var after := Apply(mid, ops);
    assert OpNames(ops) == if ops == [] then [] else [last];
    forall c | c != last
      ensures Get(after, c) == Get(mid, c)
    {
      ApplyUntouched(mid, ops, c);
    }
    if last !in init {
      assert Get(mid, last) == Get(live, last);
      assert PhaseOf(mid, last) == PhaseOf(live, last);
    }
    OpsReachExpected(cmd, cfg, state, last, mid);
    forall c | c in init + [last]
      ensures PhaseOf(after, c) == Expected(cmd, PhaseOf(live, c))
    {
      if c != last {
        assert c in init;
        assert Get(after, c) == Get(mid, c);
      }
    }
  }

  /** Every requested container ends in its expected phase once all calls of
      the plan have succeeded, and every other container is left as it was. */
  lemma {:induction false} PlanReachesExpected(cmd: Command, cfg: Config, state: State, live: State,
                                               containers: seq<string>)
    requires forall c :: c in containers ==> PhaseOf(state, c) == PhaseOf(live, c)
    ensures Reached(cmd, live, Apply(live, Plan(cmd, cfg, state, containers)), containers)
    decreases |containers|
  {
    if containers != [] {
      var n := |containers| - 1;
      var init, last := containers[..n], containers[n];
      assert containers == init + [last];
      PlanReachesExpected(cmd, cfg, state, live, init);
      ApplyConcat(live, Plan(cmd, cfg, state, init), OpsFor(cmd, cfg, state, last));
      ReachedExtend(cmd, cfg, state, live, Apply(live, Plan(cmd, cfg, state, init)), init, last);
    }
  }

  /** A container's calls are legal when its phase is the one the decision was taken on. */
  lemma OpsLegal(cmd: Command, cfg: Config, state: State, c: string, t: State)
    requires PhaseOf(t, c) == PhaseOf(state, c)
    ensures PlanLegal(t, OpsFor(cmd, cfg, state, c))
  {
    var actions := Decide(cmd, cfg, state, c);
    if actions != [] {
      var ops := OpsFor(cmd, cfg, state, c);
      assert ops[1..] == [];
      var t1 := Step(t, c, actions[0]);
      assert Legal(t, c, actions[0]);
      if |actions| == 2 {
        assert actions[1..][0] == actions[1] && actions[1..][1..] == [];
        assert Legal(t1, c, actions[1]);
        assert ActionsLegal(t1, c, actions[1..]);
      }
      assert ActionsLegal(t, c, actions);
    }
  }

  /** For a request that names no container twice, the runtime is never asked
      for a call it cannot make (assuming the earlier calls succeeded). */
  lemma {:induction false} PlanIsLegal(cmd: Command, cfg: Config, state: State, live: State, containers: seq<string>)
    requires NoDup(containers)
    requires forall c :: c in containers ==> PhaseOf(state, c) == PhaseOf(live, c)
    ensures PlanLegal(live, Plan(cmd, cfg, state, containers))
    decreases |containers|
  {
    if containers != [] {
      var n := |containers| - 1;
      var init, last := containers[..n], containers[n];
      assert containers == init + [last];
      assert NoDup(init);
      assert last !in init;
      PlanIsLegal(cmd, cfg, state, live, init);
      PlanReachesExpected(cmd, cfg, state, live, init);
      var mid := Apply(live, Plan(cmd, cfg, state, init));
      assert Get(mid, last) == Get(live, last);
      assert PhaseOf(mid, last) == PhaseOf(live, last);
      OpsLegal(cmd, cfg, state, last, mid);
      PlanLegalConcat(live, Plan(cmd, cfg, state, init), OpsFor(cmd, cfg, state, last));
    }
  }

  /** A name requested twice is planned twice: starting a missing container
      named twice creates it twice, and the second creation is refused. */
  lemma RepeatedNameIsPlannedTwice(cfg: Config, state: State, c: string)
    requires c !in state
    ensures Plan(StartCommand, cfg, state, [c, c]) ==
      [Op(c, [Create(Lookup(cfg, c)), Start]), Op(c, [Create(Lookup(cfg, c)), Start])]
    ensures !PlanLegal(state, Plan(StartCommand, cfg, state, [c, c]))
  {
    assert [c, c][..1] == [c];
    assert [c][..0] == [];
    var op := Op(c, [Create(Lookup(cfg, c)), Start]);
    var plan := [op, op];
    assert OpsFor(StartCommand, cfg, state, c) == [op];
    assert Plan(StartCommand, cfg, state, [c]) == [op];
    assert Plan(StartCommand, cfg, state, [c, c]) == plan;
    var s0 := Step(state, c, Create(Lookup(cfg, c)));
    var s1 := ApplyActions(state, c, op.actions);
    assert op.actions[1..] == [Start] && [Start][1..] == [];
    assert s1 == ApplyActions(s0, c, [Start]);
    assert ApplyActions(s0, c, [Start]) == ApplyActions(Step(s0, c, Start), c, []);
    assert c in s1;
    assert plan[1..] == [op] && !ActionsLegal(s1, c, op.actions);
  }

  /** The plan has one op per requested container that needs calls, in request
      order, each holding exactly the calls its decision row names. */
  lemma {:induction false} PlanFollowsRequest(cmd: Command, cfg: Config, state: State, containers: seq<string>)
    ensures Subseq(OpNames(Plan(cmd, cfg, state, containers)), containers)
    ensures forall op :: op in Plan(cmd, cfg, state, containers) ==>
      op.container in containers && op.actions != [] && op.actions == Decide(cmd, cfg, state, op.container)
    ensures forall c :: c in containers && Decide(cmd, cfg, state, c) != [] ==>
      Op(c, Decide(cmd, cfg, state, c)) in Plan(cmd, cfg, state, containers)
    decreases |containers|
  {
    if containers != [] {
      var n := |containers| - 1;
      var init, last := containers[..n], containers[n];
      assert containers == init + [last];
      PlanFollowsRequest(cmd, cfg, state, init);
      var p := Plan(cmd, cfg, state, init);
      var ops := OpsFor(cmd, cfg, state, last);
      assert OpNames(p + ops) == OpNames(p) + OpNames(ops);
      SubseqExtend(OpNames(p), init, OpNames(ops), last);
    }
  }

  lemma {:induction false} SubseqExtend(a: seq<string>, b: seq<string>, tail: seq<string>, x: string)
    requires Subseq(a, b)
    requires tail == [] || tail == [x]
    ensures Subseq(a + tail, b + [x])
    decreases |b|
  {
    if a == [] {
      if tail == [x] {
        assert Subseq(tail[1..], []);
        if b == [] {
          assert (a + tail)[0] == (b + [x])[0];
        } else {
          SubseqExtend(a, b[1..], tail, x);
          assert (b + [x])[1..] == b[1..] + [x];
        }
      }
    } else {
      assert b != [];
      assert (b + [x])[1..] == b[1..] + [x];
      assert (a + tail)[0] == a[0];
      assert (a + tail)[1..] == a[1..] + tail;
      if a[0] == b[0] && Subseq(a[1..], b[1..]) {
        SubseqExtend(a[1..], b[1..], tail, x);
      } else {
        SubseqExtend(a, b[1..], tail, x);
      }
    }
  }

  /** `__start`'s loop. */
  method PlanStart(cfg: Config, state: State, containers: seq<string>) returns (ops: seq<Op>)
    ensures ops == Plan(StartCommand, cfg, state, containers)
  {
    ops := [];
    for i := 0 to |containers|
      invariant ops == Plan(StartCommand, cfg, state, containers[..i])
    {
      var container := containers[i];
      assert containers[..i + 1][..i] == containers[..i];
      if container !in state {
        ops := ops + [Op(container, [Create(Lookup(cfg, container)), Start])];
      } else {
        if !state[container].running {
          ops := ops + [Op(container, [Start])];
        }
      }
    }
    assert containers[..|containers|] == containers;
  }

  /** `__stop`'s loop. */
  method PlanStop(cfg: Config, state: State, containers: seq<string>, time: nat) returns (ops: seq<Op>)
    ensures ops == Plan(StopCommand(time), cfg, state, containers)
  {
    ops := [];
    for i := 0 to |containers|
      invariant ops == Plan(StopCommand(time), cfg, state, containers[..i])
    {
      var container := containers[i];
      assert containers[..i + 1][..i] == containers[..i];
      if container in state {
        if state[container].running {
          ops := ops + [Op(container, [Stop(time)])];
        }
      }
    }
    assert containers[..|containers|] == containers;
  }

  /** `__remove`'s loop. */
  method PlanRemove(cfg: Config, state: State, containers: seq<string>, force: bool, time: nat)
    returns (ops: seq<Op>)
    ensures ops == Plan(RemoveCommand(force, time), cfg, state, containers)
  {
    ops := [];
    for i := 0 to |containers|
      invariant ops == Plan(RemoveCommand(force, time), cfg, state, containers[..i])
    {
      var container := containers[i];
      assert containers[..i + 1][..i] == containers[..i];
      if container in state {
        if state[container].running {
          if force {
            ops := ops + [Op(container, [Stop(time), Remove])];
          }
        } else {
          ops := ops + [Op(container, [Remove])];
        }
      }
    }
    assert containers[..|containers|] == containers;
  }

  /** `__restart`'s loop. */
  method PlanRestart(cfg: Config, state: State, containers: seq<string>, time: nat) returns (ops: seq<Op>)
    ensures ops == Plan(RestartCommand(time), cfg, state, containers)
  {
    ops := [];
    for i := 0 to |containers|
      invariant ops == Plan(RestartCommand(time), cfg, state, containers[..i])
    {
      var container := containers[i];
      assert containers[..i + 1][..i] == containers[..i];
      if container in state {
        if state[container].running {
          ops := ops + [Op(container, [Stop(time), Start])];
        } else {
          ops := ops + [Op(container, [Start])];
        }
      }
    }
    assert containers[..|containers|] == containers;
  }

  /** A cell of a status row: `-`, a value, or a start time shown relative to now. */
  datatype Cell = Dash | Text(text: string) | Ago(startedAt: string)

  datatype Row = Row(container: string, cid: string, pid: string, ip: string, started: Cell, error: Cell)

  /** The status made up for a container that does not exist: nothing known,
      not running; the same empty status a freshly created container has. */
  const PLACEHOLDER := CREATED

  function StatusOf(state: State, c: string): (st: Status)
    ensures c in state ==> st == state[c]
    ensures c !in state ==> st == PLACEHOLDER
  {
    if c !in state then PLACEHOLDER else state[c]
  }

  /** One row of the status table. */
  function RowOf(c: string, st: Status): (row: Row)
    ensures row.container == c && row.cid == st.cid && row.pid == st.pid && row.ip == st.ip
    ensures row.started == Dash <==> st.startedAt.None?
    ensures st.startedAt.Some? ==> row.started == Ago(st.startedAt.value)
    ensures row.error == Dash <==> st.running
    ensures !st.running ==> row.error == Text(st.errorLabel)
  {
    Row(c, st.cid, st.pid, st.ip,
        if st.startedAt.Some? then Ago(st.startedAt.value) else Dash,
        if !st.running then Text(st.errorLabel) else Dash)
  }

  /** A container the runtime does not know gets a row of empty cells, with
      `-` as its start time and an empty error label. */
  lemma MissingContainerRow(state: State, c: string)
    requires c !in state
    ensures RowOf(c, StatusOf(state, c)) == Row(c, "", "", "", Dash, Text(""))
  {
  }

  /** A running container's row shows its start time, when known, and `-` as its error. */
  lemma RunningContainerRow(state: State, c: string)
    requires c in state && state[c].running
    ensures RowOf(c, StatusOf(state, c)).error == Dash
    ensures state[c].startedAt.Some? ==> RowOf(c, StatusOf(state, c)).started == Ago(state[c].startedAt.value)
  {
  }

  /** `__status`'s loop: one row per requested container, in request order. */
  method StatusTable(state: State, containers: seq<string>) returns (table: seq<Row>)
    ensures |table| == |containers|
    ensures forall i :: 0 <= i < |containers| ==> table[i] == RowOf(containers[i], StatusOf(state, containers[i]))
  {
    table := [];
    for i := 0 to |containers|
      invariant |table| == i
      invariant forall j :: 0 <= j < i ==> table[j] == RowOf(containers[j], StatusOf(state, containers[j]))
    {
      var container := containers[i];
      var status;
      if container !in state {
        status := PLACEHOLDER;
      } else {
        status := state[container];
      }
      table := table + [RowOf(container, status)];
    }
  }
}
