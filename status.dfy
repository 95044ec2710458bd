/**
 `process_status` of alerta/utils/api.py: the `status_change` hooks run in routing order
 over the running (alert, status, text), stopping at a suppressed alert, with the
 legacy two-argument retry on TypeError; any truthy returned value sets the flag and is
 unpacked as a triple, or else taken as the new alert.
 */
module StatusPipeline {
  import opened Wrappers
  import opened Hooks

  /** The loop's running state: `alert, status, text` and `alert_was_updated`. */
  datatype StatusState = StatusState(alert: Alert, status: Datum, text: Datum, updated: bool)

  /** What `process_status` returns: `(alert, status, text)`. */
  datatype StatusReply = StatusReply(alert: Alert, status: Datum, text: Datum)

  /** The merge of the value a hook left in `updated`. A falsy value changes nothing; a
      truthy one sets the flag and is unpacked as `alert, status, text` when it is a
      triple, or else becomes the alert itself. `None` is the case where what became the
      alert is no Alert at all, so that the next use of `alert` raises AttributeError. */
  function MergeStatus(st: StatusState, updated: HookValue): (r: Option<StatusState>)
    ensures !updated.Truthy() ==> r == Some(st)
    ensures updated.TupleValue? && |updated.tail| == 2 ==> r == Some(StatusState(updated.head, updated.tail[0], updated.tail[1], true))
    ensures updated.AlertValue? ==> r == Some(st.(alert := updated.alert, updated := true))
    ensures r.None? <==> updated.Truthy() && !updated.AlertValue? && !(updated.TupleValue? && |updated.tail| == 2)
    ensures r.Some? ==> (r.value.updated <==> st.updated || updated.Truthy())
  {
    if !updated.Truthy() then Some(st)
    else if updated.TupleValue? && 1 + |updated.tail| == 3 then
      Some(StatusState(updated.head, updated.tail[0], updated.tail[1], true))
    else if updated.AlertValue? then Some(st.(alert := updated.alert, updated := true))
    else None
  }

  /** One `status_change` call inside its `try`, with the legacy retry: the value it
      leaves in `updated`. */
  function StatusStep(p: Plugin, config: Config, strict: bool, st: StatusState): (r: Run<HookValue>)
    ensures Canonical(r.calls) == [HookCall(StatusChange, p.name, false)]
    ensures forall c :: c in r.calls ==> c == HookCall(StatusChange, p.name, false) || c == HookCall(StatusChange, p.name, true)
    ensures HookCall(StatusChange, p.name, true) in r.calls <==> p.statusChange(st.alert, st.status, st.text, config) == Raises(TypeMismatch)
    ensures RetriesPaired(r.calls)
    // a returned value is what the loop merges; on TypeError the legacy call decides
    ensures var out := p.statusChange(st.alert, st.status, st.text, config);
      out.Returns? ==> r.result == Success(out.value)
    ensures p.statusChange(st.alert, st.status, st.text, config) == Raises(TypeMismatch) ==>
              r.result == match p.statusChangeLegacy(st.alert, st.status, st.text)
                          case Returns(v) => Success(v)
                          case Raises(e) => Failure(Raised(e))
    // a logged fault leaves nothing to merge
    ensures var out := p.statusChange(st.alert, st.status, st.text, config);
      out.Raises? && out.exception != TypeMismatch && r.result.Success? ==> r.result.value == NoValue
    ensures var out := p.statusChange(st.alert, st.status, st.text, config);
      out.Raises? && out.exception.Alerta? ==> r.result == Failure(Raised(out.exception))
    ensures var out := p.statusChange(st.alert, st.status, st.text, config);
      out.Raises? && (out.exception.OtherException? || out.exception == NotImplemented) ==>
        r.result == if strict then Failure(PluginError(ApiError, StatusChange, p.name)) else Success(NoValue)
    ensures r.result.Failure? ==> StageFailure(r.result.error, StatusChange, strict, r.calls)
  {
    var call := [HookCall(StatusChange, p.name, false)];
    match Handle(StatusChange, p.name, strict, p.statusChange(st.alert, st.status, st.text, config))
    case Abort(f) => Run(Failure(f), call)
    case NoResult => Run(Success(NoValue), call)
    case Got(v) => Run(Success(v), call)
    case Retry => Retried(StatusChange, p.name, p.statusChangeLegacy(st.alert, st.status, st.text))
  }

  /** The `for` loop: it stops before the next hook once the running alert is suppressed,
      and fails as soon as the running alert is no Alert. */
  function StatusLoop(ps: seq<Plugin>, config: Config, strict: bool, st: StatusState): Run<StatusState>
    decreases |ps|
  {
    if |ps| == 0 || st.alert.isSuppressed then Run(Success(st), [])
    else
      var s := StatusStep(ps[0], config, strict, st);
      match s.result
      case Failure(f) => Run(Failure(f), s.calls)
      case Success(v) =>
        match MergeStatus(st, v)
        case None => Run(Failure(NotAnAlert), s.calls)
        case Some(next) => After(s.calls, StatusLoop(ps[1..], config, strict, next))
  }

  /** `process_status` as a whole; `route` is `plugins.routing`. */
  function ProcessStatusSpec(alert: Alert, status: Datum, text: Datum, route: Alert -> Routing, store: Store, strict: bool)
    : Run<StatusReply>
  {
    var loop := StatusLoop(route(alert).plugins, route(alert).config, strict, StatusState(alert, status, text, false));
    match loop.result
    case Failure(f) => Run(Failure(f), loop.calls)
    case Success(st) =>
      if st.updated then Run(Success(StatusReply(Resync(st.alert, store), st.status, st.text)), loop.calls + ResyncCalls(st.alert))
      else Run(Success(StatusReply(st.alert, st.status, st.text)), loop.calls)
  }

  /** One turn of the loop, as the method takes it. */
  lemma StatusLoopTurn(ps: seq<Plugin>, config: Config, strict: bool, st: StatusState, step: Run<HookValue>)
    requires |ps| > 0 && !st.alert.isSuppressed
    requires step == StatusStep(ps[0], config, strict, st)
    ensures step.result.Failure? ==> StatusLoop(ps, config, strict, st) == Run(Failure(step.result.error), step.calls)
    ensures step.result.Success? && MergeStatus(st, step.result.value).None? ==>
              StatusLoop(ps, config, strict, st) == Run(Failure(NotAnAlert), step.calls)
    ensures step.result.Success? && MergeStatus(st, step.result.value).Some? ==>
              StatusLoop(ps, config, strict, st)
              == After(step.calls, StatusLoop(ps[1..], config, strict, MergeStatus(st, step.result.value).value))
  {
  }

  /** One `status_change` call inside its `try`, with the `except` clauses of the status pipeline. */
  method CallStatusChange(plugin: Plugin, config: Config, strict: bool, st: StatusState)
    returns (r: Result<HookValue, Failure>, calls: seq<Call>)
    ensures Run(r, calls) == StatusStep(plugin, config, strict, st)
  {
    calls := [HookCall(StatusChange, plugin.name, false)];
    var updated := NoValue;
    match Handle(StatusChange, plugin.name, strict, plugin.statusChange(st.alert, st.status, st.text, config)) {
      case Got(v) =>
        updated := v;
      case Retry =>
        calls := calls + [HookCall(StatusChange, plugin.name, true)];
        match plugin.statusChangeLegacy(st.alert, st.status, st.text) {
          case Returns(v) =>
            updated := v;
          case Raises(e) =>
            return Failure(Raised(e)), calls;
        }
      case Abort(f) =>
        return Failure(f), calls;
      case NoResult =>
    }
    r := Success(updated);
  }

  /** The `for` loop of `process_status` over the `status_change` hooks. */
  method RunStatusChange(wanted: seq<Plugin>, config: Config, strict: bool, start: StatusState)
    returns (r: Result<StatusState, Failure>, calls: seq<Call>)
    ensures Run(r, calls) == StatusLoop(wanted, config, strict, start)
  {
    var st := start;
    calls := [];
    var i := 0;
    while i < |wanted|
      invariant 0 <= i <= |wanted|
      invariant StatusLoop(wanted[i..], config, strict, st).result == StatusLoop(wanted, config, strict, start).result
      invariant calls + StatusLoop(wanted[i..], config, strict, st).calls == StatusLoop(wanted, config, strict, start).calls
    {
      var plugin := wanted[i];
      assert wanted[i..][1..] == wanted[i + 1..];
      if st.alert.isSuppressed {
        break;
      }
      var updated, stepCalls := CallStatusChange(plugin, config, strict, st);
      StatusLoopTurn(wanted[i..], config, strict, st, Run(updated, stepCalls));
      ghost var before := calls;
      calls := calls + stepCalls;
      if updated.Failure? {
        return Failure(updated.error), calls;
      }
      var merged := MergeStatus(st, updated.value);
      if merged.None? {
        // `alert` now holds a value that is no Alert: the next `alert.is_suppressed`,
        // or `alert.update_tags` after the last plugin, raises AttributeError
        return Failure(NotAnAlert), calls;
      }
      st := merged.value;
      ConcatAssoc(before, stepCalls, StatusLoop(wanted[i + 1..], config, strict, st).calls);
      i := i + 1;
    }

    r := Success(st);
  }

  /** The status pipeline, step by step as the source runs it. */
  method ProcessStatus(alert: Alert, status: Datum, text: Datum, route: Alert -> Routing, store: Store, strict: bool)
    returns (r: Result<StatusReply, Failure>, calls: seq<Call>)
    ensures Run(r, calls) == ProcessStatusSpec(alert, status, text, route, store, strict)
  {
    var routing := route(alert);
    var loop, loopCalls := RunStatusChange(routing.plugins, routing.config, strict, StatusState(alert, status, text, false));
    calls := loopCalls;
    if loop.Failure? {
      return Failure(loop.error), calls;
    }
    var st := loop.value;
    if st.updated {
      calls := calls + [UpdateTags(st.alert.tags)];
      calls := calls + [UpdateAttributes(st.alert.attributes)];
      st := st.(alert := st.alert.(attributes := store.updateAttributes(st.alert, st.alert.attributes)));
    }
    r := Success(StatusReply(st.alert, st.status, st.text));
  }

  /** The status loop makes only `status_change` calls, each legacy retry right after
      the canonical call it retries. */
  lemma {:induction false} StatusLoopCallShape(ps: seq<Plugin>, config: Config, strict: bool, st: StatusState)
    ensures var r := StatusLoop(ps, config, strict, st);
      && (forall c :: c in r.calls ==> c.HookCall? && c.stage == StatusChange)
      && RetriesPaired(r.calls)
    decreases |ps|
  {
    if |ps| > 0 && !st.alert.isSuppressed {
      var s := StatusStep(ps[0], config, strict, st);
      if s.result.Success? && MergeStatus(st, s.result.value).Some? {
        var next := MergeStatus(st, s.result.value).value;
        StatusLoopCallShape(ps[1..], config, strict, next);
        RetriesPairedAppend(s.calls, StatusLoop(ps[1..], config, strict, next).calls);
      }
    }
  }

  /** The status loop calls the plugins in routing order, each at most once (besides its
      legacy retry); it stops early only at a suppressed alert or at a failure of the last
      plugin called. The flag, once set, stays set, and while it is unset the state is the
      one the loop started with. */
  lemma {:induction false} StatusLoopRun(ps: seq<Plugin>, config: Config, strict: bool, st: StatusState)
    ensures var r := StatusLoop(ps, config, strict, st);
      && CallsPrefix(StatusChange, ps, Canonical(r.calls))
      && (forall c :: c in r.calls ==> c.HookCall? && c.stage == StatusChange)
      && RetriesPaired(r.calls)
      && (st.alert.isSuppressed ==> r == Run(Success(st), []))
      && (r.result.Success? && !r.result.value.alert.isSuppressed ==> |Canonical(r.calls)| == |ps|)
      && (r.result.Success? && st.updated ==> r.result.value.updated)
      && (r.result.Success? && !r.result.value.updated ==> r.result.value == st)
      && (r.result.Failure? ==> StageFailure(r.result.error, StatusChange, strict, r.calls))
    decreases |ps|
  {
    StatusLoopCallShape(ps, config, strict, st);
    if |ps| > 0 && !st.alert.isSuppressed {
      var s := StatusStep(ps[0], config, strict, st);
      CallsPrefixCons(StatusChange, ps, []);
      if s.result.Success? && MergeStatus(st, s.result.value).Some? {
        var next := MergeStatus(st, s.result.value).value;
        var rest := StatusLoop(ps[1..], config, strict, next);
        StatusLoopRun(ps[1..], config, strict, next);
        assert StatusLoop(ps, config, strict, st) == After(s.calls, rest);
        CanonicalAppend(s.calls, rest.calls);
        CallsPrefixCons(StatusChange, ps, Canonical(rest.calls));
        if rest.result.Failure? {
          StageFailureAfter(rest.result.error, StatusChange, strict, s.calls, rest.calls);
        }
      }
    }
  }

  /** The loop stops as soon as the running alert is suppressed: once the hooks of the
      first `k` plugins have left a suppressed alert, the rest are never called. */
  lemma {:induction false} StatusLoopStopsAtSuppressed(ps: seq<Plugin>, config: Config, strict: bool, st: StatusState, k: nat)
    requires k <= |ps|
    requires StatusLoop(ps[..k], config, strict, st).result.Success?
    requires StatusLoop(ps[..k], config, strict, st).result.value.alert.isSuppressed
    ensures StatusLoop(ps, config, strict, st) == StatusLoop(ps[..k], config, strict, st)
    decreases k
  {
    if k > 0 && !st.alert.isSuppressed {
      assert ps[..k][0] == ps[0];
      assert ps[..k][1..] == ps[1..][..k - 1];
      var s := StatusStep(ps[0], config, strict, st);
      StatusLoopStopsAtSuppressed(ps[1..], config, strict, MergeStatus(st, s.result.value).value, k - 1);
    }
  }

  /** Status hooks that never leave a value in `updated` leave the loop state exactly as
      it was. */
  lemma {:induction false} QuietStatusLoop(ps: seq<Plugin>, config: Config, strict: bool, st: StatusState)
    requires forall j, s :: 0 <= j < |ps| ==> StatusStep(ps[j], config, strict, s).result == Success(NoValue)
    ensures StatusLoop(ps, config, strict, st).result == Success(st)
    decreases |ps|
  {
    if |ps| > 0 && !st.alert.isSuppressed {
      assert StatusStep(ps[0], config, strict, st).result == Success(NoValue);
      forall j, s | 0 <= j < |ps[1..]| ensures StatusStep(ps[1..][j], config, strict, s).result == Success(NoValue) {
        assert ps[1..][j] == ps[j + 1];
      }
      QuietStatusLoop(ps[1..], config, strict, st);
    }
  }

  /** With quiet hooks, `process_status` gives back exactly the alert, status and text it
      was passed, without resync. */
  lemma QuietProcessStatus(alert: Alert, status: Datum, text: Datum, route: Alert -> Routing, store: Store, strict: bool)
    requires forall j, s :: 0 <= j < |route(alert).plugins| ==>
               StatusStep(route(alert).plugins[j], route(alert).config, strict, s).result == Success(NoValue)
    ensures ProcessStatusSpec(alert, status, text, route, store, strict).result == Success(StatusReply(alert, status, text))
    ensures NoResync(ProcessStatusSpec(alert, status, text, route, store, strict).calls)
  {
    var start := StatusState(alert, status, text, false);
    QuietStatusLoop(route(alert).plugins, route(alert).config, strict, start);
    StatusLoopRun(route(alert).plugins, route(alert).config, strict, start);
  }

  /** Resync gating: a successful run resyncs, as its last two calls, exactly when some
      hook left a truthy value, and then returns the loop's alert resynced with the store;
      without resync it returns what it was passed. */
  lemma StatusResyncGated(alert: Alert, status: Datum, text: Datum, route: Alert -> Routing, store: Store, strict: bool)
    requires ProcessStatusSpec(alert, status, text, route, store, strict).result.Success?
    ensures var r := ProcessStatusSpec(alert, status, text, route, store, strict);
      var loop := StatusLoop(route(alert).plugins, route(alert).config, strict, StatusState(alert, status, text, false));
      && (NoResync(r.calls) <==> !loop.result.value.updated)
      && (NoResync(r.calls) ==> r.result.value == StatusReply(alert, status, text))
      && (!NoResync(r.calls) ==> r.result.value == StatusReply(Resync(loop.result.value.alert, store),
                                                               loop.result.value.status, loop.result.value.text))
      && (!NoResync(r.calls) ==> |r.calls| >= 2 && r.calls[|r.calls| - 2] == UpdateTags(r.result.value.alert.tags)
                                 && r.calls[|r.calls| - 1].UpdateAttributes?)
  {
    var start := StatusState(alert, status, text, false);
    var loop := StatusLoop(route(alert).plugins, route(alert).config, strict, start);
    StatusLoopRun(route(alert).plugins, route(alert).config, strict, start);
    var st := loop.result.value;
    if st.updated {
      assert UpdateTags(st.alert.tags) in loop.calls + ResyncCalls(st.alert);
    }
  }
}
