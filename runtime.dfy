/** The container runtime as the orchestrator sees it: the status it reports
    for existing containers, the calls it is asked to make, what a successful
    call does to the live state, and how per-container call chains are
    issued and aggregated. */
module Runtime {
  import opened Outcome
  import opened Definitions

  /** One existing container as the runtime reports it. The three strings are
      the `cid`, `pid` and `ip` columns, `errorLabel` the runtime's label for
      its last exit. */
  datatype Status = Status(cid: string, pid: string, ip: string, startedAt: Option<string>,
                           running: bool, errorLabel: string)

  /** The live containers; a name without an entry has not been created. */
  type State = map<string, Status>

  /** The runtime calls the commands issue. */
  datatype Action =
    | Create(definition: Option<Definition>)
    | Start
    | Stop(time: nat)
    | Remove
    | Pull(image: Option<string>)

  /** The chain of calls issued for one container, each after the previous succeeded. */
  datatype Op = Op(container: string, actions: seq<Action>)

  datatype Phase = Absent | Stopped | Running

  function Get(s: State, c: string): Option<Status>
  {
    if c in s then Some(s[c]) else None
  }

  function PhaseOf(s: State, c: string): Phase
  {
    if c !in s then Absent else if s[c].running then Running else Stopped
  }

  /** What the runtime reports for a container it has just created. */
  const CREATED := Status("", "", "", None, false, "")

  /** The effect of one successful call. */
  function Step(s: State, c: string, a: Action): State
  {
    match a
    case Create(_) => s[c := CREATED]
    case Start => if c in s then s[c := s[c].(running := true)] else s
    case Stop(_) => if c in s then s[c := s[c].(running := false)] else s
    case Remove => s - {c}
    case Pull(_) => s
  }

  function ApplyActions(s: State, c: string, actions: seq<Action>): State
    decreases |actions|
  {
    if actions == [] then s else ApplyActions(Step(s, c, actions[0]), c, actions[1..])
  }

  /** The state after every call of `plan` succeeded. */
  function Apply(s: State, plan: seq<Op>): State
    decreases |plan|
  {
    if plan == [] then s else Apply(ApplyActions(s, plan[0].container, plan[0].actions), plan[1..])
  }

  lemma {:induction false} ApplyConcat(s: State, p: seq<Op>, q: seq<Op>)
    ensures Apply(s, p + q) == Apply(Apply(s, p), q)
    decreases |p|
  {
    if p == [] {
      assert p + q == q;
    } else {
      assert (p + q)[0] == p[0] && (p + q)[1..] == p[1..] + q;
      ApplyConcat(ApplyActions(s, p[0].container, p[0].actions), p[1..], q);
    }
  }

  /** Calls for one container leave every other container as it was. */
  lemma {:induction false} ApplyActionsElsewhere(s: State, c: string, actions: seq<Action>, x: string)
    requires x != c
    ensures Get(ApplyActions(s, c, actions), x) == Get(s, x)
    decreases |actions|
  {
    if actions != [] {
      ApplyActionsElsewhere(Step(s, c, actions[0]), c, actions[1..], x);
    }
  }

  /** Names the ops of a plan are for, in plan order. */
  function OpNames(plan: seq<Op>): seq<string>
  {
    seq(|plan|, i requires 0 <= i < |plan| => plan[i].container)
  }

  /** A plan leaves every container it has no op for as it was. */
  lemma {:induction false} ApplyUntouched(s: State, plan: seq<Op>, x: string)
    requires x !in OpNames(plan)
    ensures Get(Apply(s, plan), x) == Get(s, x)
    decreases |plan|
  {
    if plan != [] {
      assert OpNames(plan) == [plan[0].container] + OpNames(plan[1..]);
      ApplyActionsElsewhere(s, plan[0].container, plan[0].actions, x);
      ApplyUntouched(ApplyActions(s, plan[0].container, plan[0].actions), plan[1..], x);
    }
  }

  /** Whether the runtime can carry out a call for container `c` in state `s`:
      it creates only a missing container, starts and removes only a stopped
      one, and stops only a running one. */
  predicate Legal(s: State, c: string, a: Action)
  {
    match a
    case Create(_) => c !in s
    case Start => c in s && !s[c].running
    case Stop(_) => c in s && s[c].running
    case Remove => c in s && !s[c].running
    case Pull(_) => true
  }

  predicate ActionsLegal(s: State, c: string, actions: seq<Action>)
    decreases |actions|
  {
    actions == [] || (Legal(s, c, actions[0]) && ActionsLegal(Step(s, c, actions[0]), c, actions[1..]))
  }

  /** Every call of the plan is legal in the state its predecessors left. */
  predicate PlanLegal(s: State, plan: seq<Op>)
    decreases |plan|
  {
    plan == [] ||
    (ActionsLegal(s, plan[0].container, plan[0].actions) &&
     PlanLegal(ApplyActions(s, plan[0].container, plan[0].actions), plan[1..]))
  }

  lemma {:induction false} PlanLegalConcat(s: State, p: seq<Op>, q: seq<Op>)
    requires PlanLegal(s, p) && PlanLegal(Apply(s, p), q)
    ensures PlanLegal(s, p + q)
    decreases |p|
  {
    if p == [] {
      assert p + q == q;
    } else {
      assert (p + q)[0] == p[0] && (p + q)[1..] == p[1..] + q;
      PlanLegalConcat(ApplyActions(s, p[0].container, p[0].actions), p[1..], q);
    }
  }

  /** The runtime's answer to `filterExistingContainers` followed by
      `readContainersStatus` for `names`: the requested containers that exist. */
  function Observe(live: State, names: seq<string>): (r: State)
    ensures forall c :: c in r <==> c in names && c in live
    ensures forall c :: c in r ==> r[c] == live[c]
  {
    map c | c in names && c in live :: live[c]
  }

  /** Pull calls leave the live containers as they were. */
  lemma {:induction false} ApplyPulls(s: State, plan: seq<Op>)
    requires forall i :: 0 <= i < |plan| ==> forall a :: a in plan[i].actions ==> a.Pull?
    ensures Apply(s, plan) == s
    decreases |plan|
  {
    if plan != [] {
      PullActions(s, plan[0].container, plan[0].actions);
      ApplyPulls(s, plan[1..]);
    }
  }

  lemma {:induction false} PullActions(s: State, c: string, actions: seq<Action>)
    requires forall a :: a in actions ==> a.Pull?
    ensures ApplyActions(s, c, actions) == s
    decreases |actions|
  {
    if actions != [] {
      assert actions[0] in actions;
      assert forall a :: a in actions[1..] ==> a in actions;
      PullActions(s, c, actions[1..]);
    }
  }

  /** The runtime's answer to the k-th call issued: None when it succeeded,
      Some(reason) when it failed. A failed call changes nothing. */
  type Replies = nat -> Option<string>

  /** Issues the chain of one op from call number `k` on: each call only after
      the previous one succeeded; the op fails with the first failure. */
  function RunActions(s: State, c: string, actions: seq<Action>, k: nat, reply: Replies)
    : (r: (State, nat, Result<()>))
    ensures r.1 >= k
    decreases |actions|
  {
    if actions == [] then (s, k, OK(()))
    else
      match reply(k)
      case Some(reason) => (s, k + 1, Fail(RuntimeFailure(reason)))
      case None => RunActions(Step(s, c, actions[0]), c, actions[1..], k + 1, reply)
  }

  /** Issues every op of a plan in order, whatever became of the earlier ones. */
  function RunOps(s: State, plan: seq<Op>, k: nat, reply: Replies): (r: (State, nat, seq<Result<()>>))
    ensures |r.2| == |plan|
    ensures forall i :: 0 <= i < |plan| && plan[i].actions == [] ==> r.2[i].OK?
    decreases |plan|
  {
    if plan == [] then (s, k, [])
    else
      var (s1, k1, out) := RunActions(s, plan[0].container, plan[0].actions, k, reply);
      var (s2, k2, outs) := RunOps(s1, plan[1..], k1, reply);
      assert forall i :: 1 <= i < |plan| ==> plan[i] == plan[1..][i - 1];
      (s2, k2, [out] + outs)
  }

  /** The state after issuing `plan`, and the command's aggregated outcome. */
  function Dispatch(s: State, plan: seq<Op>, reply: Replies): (State, Result<seq<()>>)
  {
    var (s', _, outs) := RunOps(s, plan, 0, reply);
    (s', Sequence(outs))
  }

  lemma {:induction false} RunActionsSucceeds(s: State, c: string, actions: seq<Action>, k: nat, reply: Replies)
    requires forall j :: reply(j).None?
    ensures RunActions(s, c, actions, k, reply).0 == ApplyActions(s, c, actions)
    ensures RunActions(s, c, actions, k, reply).2.OK?
    decreases |actions|
  {
    if actions != [] {
      RunActionsSucceeds(Step(s, c, actions[0]), c, actions[1..], k + 1, reply);
    }
  }

  lemma {:induction false} RunOpsSucceeds(s: State, plan: seq<Op>, k: nat, reply: Replies)
    requires forall j :: reply(j).None?
    ensures RunOps(s, plan, k, reply).0 == Apply(s, plan)
    ensures forall i :: 0 <= i < |plan| ==> RunOps(s, plan, k, reply).2[i].OK?
    decreases |plan|
  {
    if plan != [] {
      RunActionsSucceeds(s, plan[0].container, plan[0].actions, k, reply);
      var (s1, k1, out) := RunActions(s, plan[0].container, plan[0].actions, k, reply);
      RunOpsSucceeds(s1, plan[1..], k1, reply);
    }
  }

  /** When the runtime accepts every call, the command succeeds with one value
      per op and leaves the state `Apply` describes. */
  lemma DispatchSucceeds(s: State, plan: seq<Op>, reply: Replies)
    requires forall j :: reply(j).None?
    ensures Dispatch(s, plan, reply).0 == Apply(s, plan)
    ensures Dispatch(s, plan, reply).1.OK? && |Dispatch(s, plan, reply).1.value| == |plan|
  {
    RunOpsSucceeds(s, plan, 0, reply);
  }

  /** A command fails exactly when one of its ops failed, and reports the first such failure;
      every op was issued nonetheless. */
  lemma DispatchFailsFirst(s: State, plan: seq<Op>, reply: Replies)
    ensures var outs := RunOps(s, plan, 0, reply).2;
      |outs| == |plan| &&
      (Dispatch(s, plan, reply).1.Fail? <==> exists i :: 0 <= i < |plan| && outs[i].Fail?) &&
      (Dispatch(s, plan, reply).1.Fail? ==>
        exists i :: 0 <= i < |plan| && outs[i].Fail? && Dispatch(s, plan, reply).1.error == outs[i].error &&
          forall j :: 0 <= j < i ==> outs[j].OK?)
  {
  }
}
