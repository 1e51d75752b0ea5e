/** What every module's `main` does with the outcome of its operation:
    arguments the argument spec refuses never reach the operation, a
    `TfcError` becomes `fail_json(msg=str(e))`, and a result becomes
    `exit_json(**result)`. */
module Ansible {
  import opened Json
  import opened Client

  /** How a module run ends. `Exited` carries the keyword arguments given to
      `exit_json`; `Crashed` is an exception `main` does not catch. */
  datatype ModuleOutcome =
    | Rejected
    | Exited(facts: map<string, Json>)
    | Failed(msg: string)
    | Crashed(exception: PyException)

  /** The requests a module run sent, and how it ended. */
  datatype ModuleRun = ModuleRun(trace: seq<Request>, outcome: ModuleOutcome)

  /** `try: result = op(...) except TfcError as e: fail_json(msg=str(e))`,
      then `exit_json(**result)`, which needs a mapping. */
  function Finish(r: Result<Json>): (o: ModuleOutcome)
    ensures !o.Rejected?
    ensures o.Failed? <==> r.Err? && r.failure.TfcError?
    ensures o.Failed? ==> o.msg == r.failure.message
    ensures o.Exited? <==> r.Ok? && r.value.JObject?
    ensures o.Exited? ==> o.facts == r.value.fields
    ensures o == Crashed(TypeError) <==>
      (r.Ok? && !r.value.JObject?) || r == Err(Uncaught(TypeError))
  {
    match r
    case Ok(j) => if j.JObject? then Exited(j.fields) else Crashed(TypeError)
    case Err(TfcError(_, msg)) => Failed(msg)
    case Err(Uncaught(e)) => Crashed(e)
  }

  /** A module run: nothing is sent unless the arguments are accepted, and then
      the operation's requests are the run's requests. */
  function Conclude(accepted: bool, run: Run<Json>): (m: ModuleRun)
    ensures m.outcome.Rejected? <==> !accepted
    ensures !accepted ==> m.trace == []
    ensures accepted ==> m.trace == run.trace
    ensures m.outcome.Failed? ==>
      run.result.Err? && run.result.failure.TfcError? && m.outcome.msg == run.result.failure.message
    ensures m.outcome.Exited? ==> run.result == Ok(JObject(m.outcome.facts))
    // and conversely: every accepted result ends as `main` makes it end
    ensures accepted && run.result.Err? && run.result.failure.TfcError? ==>
      m.outcome == Failed(run.result.failure.message)
    ensures accepted && run.result.Ok? && run.result.value.JObject? ==>
      m.outcome == Exited(run.result.value.fields)
    ensures accepted && run.result.Ok? && !run.result.value.JObject? ==> m.outcome == Crashed(TypeError)
    ensures accepted && run.result.Err? && run.result.failure.Uncaught? ==>
      m.outcome == Crashed(run.result.failure.exception)
  {
    if accepted then ModuleRun(run.trace, Finish(run.result)) else ModuleRun([], Rejected)
  }

  /** The keyword arguments of `exit_json(skipped=True, msg=...)`, with which
      `AnsibleModule` ends a check-mode run of a module that does not declare
      `supports_check_mode`. */
  function SkippedFacts(name: string): map<string, Json> {
    map["skipped" := JBool(true),
        "msg" := JString("remote module (" + name + ") does not support check mode")]
  }

  /** A module run as Ansible starts it: arguments are validated first, even in
      check mode; then a module without check-mode support is skipped before
      its operation runs; otherwise the run is as without check mode. */
  function ConcludeChecked(accepted: bool, checkMode: bool, supportsCheckMode: bool, name: string,
                           run: Run<Json>): (m: ModuleRun)
    ensures m.outcome.Rejected? <==> !accepted
    ensures checkMode && !supportsCheckMode ==> m.trace == []
    ensures accepted && checkMode && !supportsCheckMode ==>
      m.outcome.Exited? && "skipped" in m.outcome.facts && m.outcome.facts["skipped"] == JBool(true)
    ensures !checkMode || supportsCheckMode ==> m == Conclude(accepted, run)
  {
    if accepted && checkMode && !supportsCheckMode then ModuleRun([], Exited(SkippedFacts(name)))
    else Conclude(accepted, run)
  }
}
