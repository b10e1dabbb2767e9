/** Success-or-failure values that every orchestration step produces, and the
    fail-fast aggregation of a batch of per-container operations. */
module Outcome {

  datatype Option<+T> = None | Some(value: T)

  /** The failures a command can report. */
  datatype Error =
    | InvalidContainer(missing: seq<string>)  // requested names that the configuration does not define
    | RuntimeFailure(reason: string)          // a failure reported by the container runtime

  datatype Result<+T> = OK(value: T) | Fail(error: Error)

  /** Aggregates already-evaluated outcomes: the values in order when all
      succeeded, otherwise the first failure. */
  function Sequence<T>(rs: seq<Result<T>>): (r: Result<seq<T>>)
    ensures r.OK? <==> forall i :: 0 <= i < |rs| ==> rs[i].OK?
    ensures r.OK? ==> |r.value| == |rs| && forall i :: 0 <= i < |rs| ==> r.value[i] == rs[i].value
    ensures r.Fail? ==>
      exists i :: 0 <= i < |rs| && rs[i].Fail? && r.error == rs[i].error &&
        forall j :: 0 <= j < i ==> rs[j].OK?
  {
    if rs == [] then OK([])
    else
      match rs[0]
      case Fail(e) => Fail(e)
      case OK(v) =>
        var rest := Sequence(rs[1..]);
        assert forall i :: 1 <= i < |rs| ==> rs[i] == rs[1..][i - 1];
        match rest
        case Fail(e) => Fail(e)
        case OK(vs) => OK([v] + vs)
  }
}
