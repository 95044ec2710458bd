/**
 `process_delete` of alerta/utils/api.py: every routed plugin's `delete` hook may veto
 the deletion; once one has, `delete and ...` short-circuits and no later hook is
 called, and the alert is deleted from the store only when no hook vetoed it.
 */
module DeletePipeline {
  import opened Wrappers
  import opened Hooks

  /** The plugin's `delete` hook returns a falsy value: it vetoes the deletion. */
  predicate Vetoes(p: Plugin, config: Config, alert: Alert) {
    p.delete(alert, config) == Returns(false)
  }

  /** The index of the first plugin that vetoes, or `|ps|` when none does. */
  function FirstVeto(ps: seq<Plugin>, config: Config, alert: Alert): (k: nat)
    ensures k <= |ps|
    ensures k < |ps| ==> Vetoes(ps[k], config, alert)
    ensures forall j :: 0 <= j < k ==> !Vetoes(ps[j], config, alert)
    decreases |ps|
  {
    if |ps| == 0 then 0
    else if Vetoes(ps[0], config, alert) then 0
    else
      var k := FirstVeto(ps[1..], config, alert);
      assert forall j :: 1 <= j < 1 + k ==> ps[j] == ps[1..][j - 1];
      1 + k
  }

  /** `delete = delete and plugin.delete(alert, config=...)` inside its `try`: the hook is
      called only while the verdict still stands, a returned value becomes the verdict,
      and a skipped or logged fault leaves the verdict as it was. */
  function DeleteStep(p: Plugin, config: Config, strict: bool, verdict: bool, alert: Alert): (r: Run<bool>)
    ensures !verdict ==> r == Run(Success(false), [])
    ensures verdict ==> r.calls == [HookCall(Delete, p.name, false)]
    ensures verdict && p.delete(alert, config).Returns? ==> r.result == Success(p.delete(alert, config).value)
    ensures r.result == Success(false) <==> !verdict || Vetoes(p, config, alert)
    // control signals are re-raised unchanged; NotImplementedError and logged faults keep the verdict
    ensures var out := p.delete(alert, config);
      verdict && out.Raises? && out.exception.Alerta? ==> r.result == Failure(Raised(out.exception))
    ensures var out := p.delete(alert, config);
      verdict && out == Raises(NotImplemented) ==> r.result == Success(true)
    ensures var out := p.delete(alert, config);
      verdict && out.Raises? && (out.exception.OtherException? || out.exception == TypeMismatch) ==>
        r.result == if strict then Failure(PluginError(ApiError, Delete, p.name)) else Success(true)
    ensures r.result.Failure? ==> StageFailure(r.result.error, Delete, strict, r.calls)
                                  && (r.result.error.Raised? ==> r.result.error.exception.Alerta?)
  {
    if !verdict then Run(Success(false), [])
    else
      var call := [HookCall(Delete, p.name, false)];
      match Handle(Delete, p.name, strict, p.delete(alert, config))
      case Abort(f) => Run(Failure(f), call)
      case Got(b) => Run(Success(b), call)
      case NoResult => Run(Success(verdict), call)
      case Retry => assert false; Run(Success(verdict), call)
  }

  /** The `for` loop over the routed plugins; it goes on to the end even after a veto. */
  function DeleteLoop(ps: seq<Plugin>, config: Config, strict: bool, verdict: bool, alert: Alert): Run<bool>
    decreases |ps|
  {
    if |ps| == 0 then Run(Success(verdict), [])
    else
      var s := DeleteStep(ps[0], config, strict, verdict, alert);
      match s.result
      case Failure(f) => Run(Failure(f), s.calls)
      case Success(v) => After(s.calls, DeleteLoop(ps[1..], config, strict, v, alert))
  }

  /** `process_delete` as a whole: `delete and alert.delete()`. */
  function ProcessDeleteSpec(alert: Alert, route: Alert -> Routing, store: Store, strict: bool): Run<bool>
  {
    var loop := DeleteLoop(route(alert).plugins, route(alert).config, strict, true, alert);
    match loop.result
    case Failure(f) => Run(Failure(f), loop.calls)
    case Success(v) =>
      if v then Run(Success(store.delete(alert)), loop.calls + [DeleteAlert])
      else Run(Success(false), loop.calls)
  }

  /** One turn of the loop, as the method takes it. */
  lemma DeleteLoopTurn(ps: seq<Plugin>, config: Config, strict: bool, verdict: bool, alert: Alert, step: Run<bool>)
    requires |ps| > 0
    requires step == DeleteStep(ps[0], config, strict, verdict, alert)
    ensures step.result.Failure? ==> DeleteLoop(ps, config, strict, verdict, alert) == Run(Failure(step.result.error), step.calls)
    ensures step.result.Success? ==>
              DeleteLoop(ps, config, strict, verdict, alert)
              == After(step.calls, DeleteLoop(ps[1..], config, strict, step.result.value, alert))
  {
  }

  /** One `delete = delete and plugin.delete(...)` inside its `try`, with the `except`
      clauses of the delete pipeline. */
  method CallDelete(plugin: Plugin, config: Config, strict: bool, delete: bool, alert: Alert)
    returns (r: Result<bool, Failure>, calls: seq<Call>)
    ensures Run(r, calls) == DeleteStep(plugin, config, strict, delete, alert)
  {
    if !delete {
      return Success(false), [];
    }
    calls := [HookCall(Delete, plugin.name, false)];
    var verdict := delete;
    match Handle(Delete, plugin.name, strict, plugin.delete(alert, config)) {
      case Got(b) =>
        verdict := b;
      case Abort(f) =>
        return Failure(f), calls;
      case NoResult =>
      case Retry =>
        assert false;
    }
    r := Success(verdict);
  }

  /** The delete pipeline, step by step as the source runs it. */
  method ProcessDelete(alert: Alert, route: Alert -> Routing, store: Store, strict: bool)
    returns (r: Result<bool, Failure>, calls: seq<Call>)
    ensures Run(r, calls) == ProcessDeleteSpec(alert, route, store, strict)
  {
    var routing := route(alert);
    var wanted := routing.plugins;
    var delete := true;
    calls := [];
    var i := 0;
    while i < |wanted|
      invariant 0 <= i <= |wanted|
      invariant DeleteLoop(wanted[i..], routing.config, strict, delete, alert).result
                == DeleteLoop(wanted, routing.config, strict, true, alert).result
      invariant calls + DeleteLoop(wanted[i..], routing.config, strict, delete, alert).calls
                == DeleteLoop(wanted, routing.config, strict, true, alert).calls
    {
      var plugin := wanted[i];
      assert wanted[i..][1..] == wanted[i + 1..];
      var verdict, stepCalls := CallDelete(plugin, routing.config, strict, delete, alert);
      DeleteLoopTurn(wanted[i..], routing.config, strict, delete, alert, Run(verdict, stepCalls));
      ghost var before := calls;
      calls := calls + stepCalls;
      if verdict.Failure? {
        return Failure(verdict.error), calls;
      }
      delete := verdict.value;
      ConcatAssoc(before, stepCalls, DeleteLoop(wanted[i + 1..], routing.config, strict, delete, alert).calls);
      i := i + 1;
    }

    if delete {
      calls := calls + [DeleteAlert];
      r := Success(store.delete(alert));
    } else {
      r := Success(false);
    }
  }

  /** A vetoed loop calls no hook at all. A standing verdict calls the hooks in routing
      order up to and including the first veto and no further, so a hook after a veto
      can never raise; the loop's verdict is true exactly when no plugin vetoes, and a
      failure comes from a hook called before any veto. */
  lemma {:induction false} DeleteLoopRun(ps: seq<Plugin>, config: Config, strict: bool, verdict: bool, alert: Alert)
    ensures var r := DeleteLoop(ps, config, strict, verdict, alert);
      && (!verdict ==> r == Run(Success(false), []))
      && CallsPrefix(Delete, ps, r.calls)
      && (verdict && r.result.Success? ==>
            (r.result.value <==> FirstVeto(ps, config, alert) == |ps|)
            && |r.calls| == if FirstVeto(ps, config, alert) < |ps| then FirstVeto(ps, config, alert) + 1 else |ps|)
      && (r.result.Failure? ==> StageFailure(r.result.error, Delete, strict, r.calls)
                                && (r.result.error.Raised? ==> r.result.error.exception.Alerta?)
                                && |r.calls| <= FirstVeto(ps, config, alert))
    decreases |ps|
  {
    if |ps| > 0 {
      var s := DeleteStep(ps[0], config, strict, verdict, alert);
      if s.result.Success? {
        var rest := DeleteLoop(ps[1..], config, strict, s.result.value, alert);
        DeleteLoopRun(ps[1..], config, strict, s.result.value, alert);
        if verdict {
          CallsPrefixCons(Delete, ps, rest.calls);
          if rest.result.Failure? {
            StageFailureAfter(rest.result.error, Delete, strict, s.calls, rest.calls);
          }
        }
      } else {
        CallsPrefixCons(Delete, ps, []);
      }
    }
  }

  /** `process_delete` deletes the alert from the store, as its last call, exactly when
      the loop succeeded without a veto; it reports true exactly when no plugin vetoed
      and the store deleted the alert. */
  lemma DeleteGated(alert: Alert, route: Alert -> Routing, store: Store, strict: bool)
    ensures var r := ProcessDeleteSpec(alert, route, store, strict);
      var ps := route(alert).plugins;
      && (DeleteAlert in r.calls <==> r.result.Success? && FirstVeto(ps, route(alert).config, alert) == |ps|)
      && (DeleteAlert in r.calls ==> r.calls[|r.calls| - 1] == DeleteAlert)
      && (r.result.Success? ==>
            (r.result.value <==> FirstVeto(ps, route(alert).config, alert) == |ps| && store.delete(alert)))
  {
    var ps := route(alert).plugins;
    var loop := DeleteLoop(ps, route(alert).config, strict, true, alert);
    DeleteLoopRun(ps, route(alert).config, strict, true, alert);
    assert DeleteAlert !in loop.calls;
  }
}
