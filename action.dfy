/**
 `process_action` of alerta/utils/api.py: the `take_action` hooks run in routing order
 over the running (alert, action, text, timeout), stopping at a suppressed alert; each
 returned Alert or tuple is merged by its shape, and tags and attributes are resynced
 when some hook returned one.
 */
module ActionPipeline {
  import opened Wrappers
  import opened Hooks

  /** The loop's running state: `alert, action, text, timeout` and `alert_was_updated`. */
  datatype ActionState = ActionState(alert: Alert, action: Datum, text: Datum, timeout: Datum, updated: bool)

  /** What `process_action` returns: `(alert, action, text, timeout)`. */
  datatype ActionReply = ActionReply(alert: Alert, action: Datum, text: Datum, timeout: Datum)

  /** The merge of the value a hook left in `updated`: a bare Alert stands for
      `(alert, action, text, timeout)`; a 4-tuple replaces all four fields, a 3-tuple all
      but the timeout, a tuple of any other length none; every tuple sets the flag. */
  function MergeAction(st: ActionState, updated: HookValue): (r: ActionState)
    ensures updated == NoValue || updated.OtherValue? ==> r == st
    ensures updated.AlertValue? ==> r == st.(alert := updated.alert, updated := true)
    ensures updated.TupleValue? && |updated.tail| == 3 ==>
              r == ActionState(updated.head, updated.tail[0], updated.tail[1], updated.tail[2], true)
    ensures updated.TupleValue? && |updated.tail| == 2 ==>
              r == ActionState(updated.head, updated.tail[0], updated.tail[1], st.timeout, true)
    ensures updated.TupleValue? && |updated.tail| != 2 && |updated.tail| != 3 ==> r == st.(updated := true)
    ensures r.updated <==> st.updated || updated.AlertValue? || updated.TupleValue?
  {
    var v := if updated.AlertValue? then TupleValue(updated.alert, [st.action, st.text, st.timeout]) else updated;
    if v.TupleValue? then
      if 1 + |v.tail| == 4 then ActionState(v.head, v.tail[0], v.tail[1], v.tail[2], true)
      else if 1 + |v.tail| == 3 then st.(alert := v.head, action := v.tail[0], text := v.tail[1], updated := true)
      else st.(updated := true)
    else st
  }

  /** One `take_action` call inside its `try`: the value it leaves in `updated`. */
  function ActionStep(p: Plugin, config: Config, strict: bool, st: ActionState): (r: Run<HookValue>)
    ensures r.calls == [HookCall(TakeAction, p.name, false)]
    ensures p.takeAction(st.alert, st.action, st.text, st.timeout, config).Returns? ==>
              r.result == Success(p.takeAction(st.alert, st.action, st.text, st.timeout, config).value)
    ensures p.takeAction(st.alert, st.action, st.text, st.timeout, config) == Raises(NotImplemented) ==> r.result == Success(NoValue)
    ensures var out := p.takeAction(st.alert, st.action, st.text, st.timeout, config);
      out.Raises? && out.exception.Alerta? ==> r.result == Failure(Raised(out.exception))
    ensures var out := p.takeAction(st.alert, st.action, st.text, st.timeout, config);
      out.Raises? && (out.exception.OtherException? || out.exception == TypeMismatch) ==>
        r.result == if strict then Failure(PluginError(ApiError, TakeAction, p.name)) else Success(NoValue)
    ensures r.result.Failure? ==> StageFailure(r.result.error, TakeAction, strict, r.calls) && r.result.error != Raised(TypeMismatch)
  {
    var call := [HookCall(TakeAction, p.name, false)];
    match Handle(TakeAction, p.name, strict, p.takeAction(st.alert, st.action, st.text, st.timeout, config))
    case Abort(f) => Run(Failure(f), call)
    case Got(v) => Run(Success(v), call)
    case NoResult => Run(Success(NoValue), call)
    case Retry => assert false; Run(Success(NoValue), call)
  }

  /** The `for` loop: it stops before the next hook once the running alert is suppressed. */
  function ActionLoop(ps: seq<Plugin>, config: Config, strict: bool, st: ActionState): Run<ActionState>
    decreases |ps|
  {
    if |ps| == 0 || st.alert.isSuppressed then Run(Success(st), [])
    else
      var s := ActionStep(ps[0], config, strict, st);
      match s.result
      case Failure(f) => Run(Failure(f), s.calls)
      case Success(v) => After(s.calls, ActionLoop(ps[1..], config, strict, MergeAction(st, v)))
  }

  /** `process_action` as a whole; `route` is `plugins.routing`. */
  function ProcessActionSpec(alert: Alert, action: Datum, text: Datum, timeout: Datum,
                             route: Alert -> Routing, store: Store, strict: bool): Run<ActionReply>
  {
    var loop := ActionLoop(route(alert).plugins, route(alert).config, strict, ActionState(alert, action, text, timeout, false));
    match loop.result
    case Failure(f) => Run(Failure(f), loop.calls)
    case Success(st) =>
      if st.updated then Run(Success(ActionReply(Resync(st.alert, store), st.action, st.text, st.timeout)), loop.calls + ResyncCalls(st.alert))
      else Run(Success(ActionReply(st.alert, st.action, st.text, st.timeout)), loop.calls)
  }

  /** One turn of the loop, as the method takes it. */
  lemma ActionLoopTurn(ps: seq<Plugin>, config: Config, strict: bool, st: ActionState, step: Run<HookValue>)
    requires |ps| > 0 && !st.alert.isSuppressed
    requires step == ActionStep(ps[0], config, strict, st)
    ensures step.result.Failure? ==> ActionLoop(ps, config, strict, st) == Run(Failure(step.result.error), step.calls)
    ensures step.result.Success? ==>
              ActionLoop(ps, config, strict, st) == After(step.calls, ActionLoop(ps[1..], config, strict, MergeAction(st, step.result.value)))
  {
  }

  /** One `take_action` call inside its `try`, with the `except` clauses of the action pipeline. */
  method CallTakeAction(plugin: Plugin, config: Config, strict: bool, st: ActionState)
    returns (r: Result<HookValue, Failure>, calls: seq<Call>)
    ensures Run(r, calls) == ActionStep(plugin, config, strict, st)
  {
    calls := [HookCall(TakeAction, plugin.name, false)];
    var updated := NoValue;
    match Handle(TakeAction, plugin.name, strict, plugin.takeAction(st.alert, st.action, st.text, st.timeout, config)) {
      case Got(v) =>
        updated := v;
      case Abort(f) =>
        return Failure(f), calls;
      case NoResult =>
      case Retry =>
        assert false;
    }
    r := Success(updated);
  }

  /** The `for` loop of `process_action` over the `take_action` hooks. */
  method RunTakeAction(wanted: seq<Plugin>, config: Config, strict: bool, start: ActionState)
    returns (r: Result<ActionState, Failure>, calls: seq<Call>)
    ensures Run(r, calls) == ActionLoop(wanted, config, strict, start)
  {
    var st := start;
    calls := [];
    var i := 0;
    while i < |wanted|
      invariant 0 <= i <= |wanted|
      invariant ActionLoop(wanted[i..], config, strict, st).result == ActionLoop(wanted, config, strict, start).result
      invariant calls + ActionLoop(wanted[i..], config, strict, st).calls == ActionLoop(wanted, config, strict, start).calls
    {
      var plugin := wanted[i];
      assert wanted[i..][1..] == wanted[i + 1..];
      if st.alert.isSuppressed {
        break;
      }
      var updated, stepCalls := CallTakeAction(plugin, config, strict, st);
      ActionLoopTurn(wanted[i..], config, strict, st, Run(updated, stepCalls));
      ghost var before := calls;
      calls := calls + stepCalls;
      if updated.Failure? {
        return Failure(updated.error), calls;
      }
      st := MergeAction(st, updated.value);
      ConcatAssoc(before, stepCalls, ActionLoop(wanted[i + 1..], config, strict, st).calls);
      i := i + 1;
    }

    r := Success(st);
  }

  /** The action pipeline, step by step as the source runs it. */
  method ProcessAction(alert: Alert, action: Datum, text: Datum, timeout: Datum,
                       route: Alert -> Routing, store: Store, strict: bool)
    returns (r: Result<ActionReply, Failure>, calls: seq<Call>)
    ensures Run(r, calls) == ProcessActionSpec(alert, action, text, timeout, route, store, strict)
  {
    var routing := route(alert);
    var loop, loopCalls := RunTakeAction(routing.plugins, routing.config, strict, ActionState(alert, action, text, timeout, false));
    calls := loopCalls;
    if loop.Failure? {
      return Failure(loop.error), calls;
    }
    var st := loop.value;
    if st.updated {
      calls := calls + [UpdateTags(st.alert.tags)];
      calls := calls + [UpdateAttributes(st.alert.attributes)];
      st := st.(alert := st.alert.(attributes := store.updateAttributes(st.alert, st.alert.attributes)));
    }
    r := Success(ActionReply(st.alert, st.action, st.text, st.timeout));
  }

  /** The action loop calls the plugins in routing order, each at most once; it stops
      early only at a suppressed alert or at a failure of the last plugin called, which is
      a control signal re-raised unchanged or, under the strict policy, an ApiError naming
      that plugin. The flag, once set, stays set, and while it is unset the state is the
      one the loop started with. */
  lemma {:induction false} ActionLoopRun(ps: seq<Plugin>, config: Config, strict: bool, st: ActionState)
    ensures var r := ActionLoop(ps, config, strict, st);
      && CallsPrefix(TakeAction, ps, r.calls)
      && (st.alert.isSuppressed ==> r == Run(Success(st), []))
      && (r.result.Success? && !r.result.value.alert.isSuppressed ==> |r.calls| == |ps|)
      && (r.result.Success? && st.updated ==> r.result.value.updated)
      && (r.result.Success? && !r.result.value.updated ==> r.result.value == st)
      && (r.result.Failure? ==> StageFailure(r.result.error, TakeAction, strict, r.calls)
                                && (r.result.error.Raised? ==> r.result.error.exception.Alerta?))
    decreases |ps|
  {
    if |ps| > 0 && !st.alert.isSuppressed {
      var s := ActionStep(ps[0], config, strict, st);
      CallsPrefixCons(TakeAction, ps, []);
      if s.result.Success? {
        var next := MergeAction(st, s.result.value);
        var rest := ActionLoop(ps[1..], config, strict, next);
        ActionLoopRun(ps[1..], config, strict, next);
        CallsPrefixCons(TakeAction, ps, rest.calls);
        if rest.result.Failure? {
          StageFailureAfter(rest.result.error, TakeAction, strict, s.calls, rest.calls);
        }
      }
    }
  }

  /** The loop stops as soon as the running alert is suppressed: once the hooks of the
      first `k` plugins have left a suppressed alert, the rest are never called. */
  lemma {:induction false} ActionLoopStopsAtSuppressed(ps: seq<Plugin>, config: Config, strict: bool, st: ActionState, k: nat)
    requires k <= |ps|
    requires ActionLoop(ps[..k], config, strict, st).result.Success?
    requires ActionLoop(ps[..k], config, strict, st).result.value.alert.isSuppressed
    ensures ActionLoop(ps, config, strict, st) == ActionLoop(ps[..k], config, strict, st)
    decreases k
  {
    if k > 0 && !st.alert.isSuppressed {
      assert ps[..k][0] == ps[0];
      assert ps[..k][1..] == ps[1..][..k - 1];
      var s := ActionStep(ps[0], config, strict, st);
      ActionLoopStopsAtSuppressed(ps[1..], config, strict, MergeAction(st, s.result.value), k - 1);
    }
  }

  /** Hooks that never return a value (they return None, or are skipped or logged) leave
      the loop state exactly as it was, and each of them is called unless the alert is suppressed. */
  lemma {:induction false} QuietActionLoop(ps: seq<Plugin>, config: Config, strict: bool, st: ActionState)
    requires forall j, s :: 0 <= j < |ps| ==> ActionStep(ps[j], config, strict, s).result == Success(NoValue)
    ensures ActionLoop(ps, config, strict, st).result == Success(st)
    ensures ActionLoop(ps, config, strict, st).calls == if st.alert.isSuppressed then [] else HookCalls(TakeAction, ps)
    decreases |ps|
  {
    if |ps| > 0 && !st.alert.isSuppressed {
      assert ActionStep(ps[0], config, strict, st).result == Success(NoValue);
      forall j, s | 0 <= j < |ps[1..]| ensures ActionStep(ps[1..][j], config, strict, s).result == Success(NoValue) {
        assert ps[1..][j] == ps[j + 1];
      }
      QuietActionLoop(ps[1..], config, strict, st);
      assert [HookCall(TakeAction, ps[0].name, false)] + HookCalls(TakeAction, ps[1..]) == HookCalls(TakeAction, ps);
    }
  }

  /** With quiet hooks, `process_action` gives back exactly the alert, action, text and
      timeout it was passed, without resync. */
  lemma QuietProcessAction(alert: Alert, action: Datum, text: Datum, timeout: Datum,
                           route: Alert -> Routing, store: Store, strict: bool)
    requires forall j, s :: 0 <= j < |route(alert).plugins| ==>
               ActionStep(route(alert).plugins[j], route(alert).config, strict, s).result == Success(NoValue)
    ensures ProcessActionSpec(alert, action, text, timeout, route, store, strict).result
            == Success(ActionReply(alert, action, text, timeout))
    ensures NoResync(ProcessActionSpec(alert, action, text, timeout, route, store, strict).calls)
  {
    QuietActionLoop(route(alert).plugins, route(alert).config, strict, ActionState(alert, action, text, timeout, false));
  }

  /** Resync gating: a successful run resyncs, as its last two calls, exactly when some
      hook returned an Alert or a tuple, and then returns the loop's alert resynced with
      the store; without resync it returns what it was passed. */
  lemma ActionResyncGated(alert: Alert, action: Datum, text: Datum, timeout: Datum,
                          route: Alert -> Routing, store: Store, strict: bool)
    requires ProcessActionSpec(alert, action, text, timeout, route, store, strict).result.Success?
    ensures var r := ProcessActionSpec(alert, action, text, timeout, route, store, strict);
      var loop := ActionLoop(route(alert).plugins, route(alert).config, strict, ActionState(alert, action, text, timeout, false));
      && (NoResync(r.calls) <==> !loop.result.value.updated)
      && (NoResync(r.calls) ==> r.result.value == ActionReply(alert, action, text, timeout))
      && (!NoResync(r.calls) ==> r.result.value == ActionReply(Resync(loop.result.value.alert, store), loop.result.value.action,
                                                               loop.result.value.text, loop.result.value.timeout))
      && (!NoResync(r.calls) ==> |r.calls| >= 2 && r.calls[|r.calls| - 2] == UpdateTags(r.result.value.alert.tags)
                                 && r.calls[|r.calls| - 1].UpdateAttributes?)
  {
    var start := ActionState(alert, action, text, timeout, false);
    var loop := ActionLoop(route(alert).plugins, route(alert).config, strict, start);
    ActionLoopRun(route(alert).plugins, route(alert).config, strict, start);
    var st := loop.result.value;
    if st.updated {
      assert UpdateTags(st.alert.tags) in loop.calls + ResyncCalls(st.alert);
    }
  }
}
