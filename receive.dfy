/**
 `process_alert` of alerta/utils/api.py, the receive pipeline: the pre-receive hooks,
 the lifecycle step (deduplicate, else correlate and update, else create), the
 post-receive hooks against a fresh routing of the stored alert, and the resync of
 tags and attributes when a post-receive hook returned an alert.
 */
module ReceivePipeline {
  import opened Wrappers
  import opened Hooks

  /** The state the pre-receive loop leaves: the alert and `skip_plugins`. */
  datatype PreState = PreState(alert: Alert, skip: bool)

  /** The state of the post-receive loop: the alert and `alert_was_updated`. */
  datatype PostState = PostState(alert: Alert, updated: bool)

  /** What a pre-receive hook's return leaves in `alert`: a falsy value raises SyntaxError. */
  function Landed(name: string, v: Option<Alert>, calls: seq<Call>): Run<Alert> {
    if v.None? then Run(Failure(MissingAlert(name)), calls) else Run(Success(v.value), calls)
  }

  /** One pre-receive iteration after the suppression check. */
  function PreStep(p: Plugin, config: Config, strict: bool, alert: Alert): (r: Run<Alert>)
    // one canonical call to the plugin, possibly followed by its legacy retry
    ensures Canonical(r.calls) == [HookCall(PreReceive, p.name, false)]
    ensures forall c :: c in r.calls ==> c == HookCall(PreReceive, p.name, false) || c == HookCall(PreReceive, p.name, true)
    ensures HookCall(PreReceive, p.name, true) in r.calls <==> p.preReceive(alert, config) == Raises(TypeMismatch)
    ensures RetriesPaired(r.calls)
    // a returned alert becomes the running alert; a hook that returns no alert is a SyntaxError
    ensures var out := p.preReceive(alert, config);
      out.Returns? ==> r.result == if out.value.Some? then Success(out.value.value) else Failure(MissingAlert(p.name))
    // on TypeError the legacy call decides, and what it raises propagates unclassified
    ensures p.preReceive(alert, config) == Raises(TypeMismatch) ==>
              r.result == match p.preReceiveLegacy(alert)
                          case Returns(Some(a)) => Success(a)
                          case Returns(None) => Failure(MissingAlert(p.name))
                          case Raises(e) => Failure(Raised(e))
    // a skipped or logged fault leaves the alert as it was
    ensures p.preReceive(alert, config).Raises? && p.preReceive(alert, config).exception != TypeMismatch && r.result.Success?
            ==> r.result.value == alert
    // control signals are re-raised unchanged; a generic fault is wrapped or logged
    ensures var out := p.preReceive(alert, config);
      out.Raises? && out.exception.Alerta? ==> r.result == Failure(Raised(out.exception))
    ensures var out := p.preReceive(alert, config);
      out.Raises? && (out.exception.OtherException? || out.exception == NotImplemented) ==>
        r.result == if strict then Failure(PluginError(RuntimeError, PreReceive, p.name)) else Success(alert)
    ensures r.result.Failure? ==> StageFailure(r.result.error, PreReceive, strict, r.calls)
  {
    var call := [HookCall(PreReceive, p.name, false)];
    match Handle(PreReceive, p.name, strict, p.preReceive(alert, config))
    case Abort(f) => Run(Failure(f), call)
    case NoResult => Run(Success(alert), call)
    case Got(v) => Landed(p.name, v, call)
    case Retry =>
      var legacy := Retried(PreReceive, p.name, p.preReceiveLegacy(alert));
      match legacy.result
      case Success(v) => Landed(p.name, v, legacy.calls)
      case Failure(f) => Run(Failure(f), legacy.calls)
  }

  /** The pre-receive loop: stops with `skip` set when an iteration starts on a suppressed alert. */
  function PreLoop(ps: seq<Plugin>, config: Config, strict: bool, alert: Alert): Run<PreState>
    decreases |ps|
  {
    if |ps| == 0 then Run(Success(PreState(alert, false)), [])
    else if alert.isSuppressed then Run(Success(PreState(alert, true)), [])
    else
      var s := PreStep(ps[0], config, strict, alert);
      match s.result
      case Failure(f) => Run(Failure(f), s.calls)
      case Success(a) => After(s.calls, PreLoop(ps[1..], config, strict, a))
  }

  /** The lifecycle step: duplicate first, then correlated, then new. Every failure in
      it becomes one ApiError, whatever the exception. */
  function Lifecycle(alert: Alert, store: Store): (r: Run<Alert>)
    ensures |r.calls| > 0 && r.calls[0] == IsDuplicate
    ensures r.result.Failure? ==> r.result.error.LifecycleError?
    ensures r.result.Success? ==>
              r.calls == [IsDuplicate, Deduplicate] ||
              r.calls == [IsDuplicate, IsCorrelated, Update] ||
              r.calls == [IsDuplicate, IsCorrelated, Create]
    ensures Deduplicate in r.calls <==> store.isDuplicate(alert).Returns? && store.isDuplicate(alert).value.Some?
    ensures Update in r.calls ==> store.isDuplicate(alert) == Returns(None) &&
                                  store.isCorrelated(alert).Returns? && store.isCorrelated(alert).value.Some?
    ensures Create in r.calls ==> store.isDuplicate(alert) == Returns(None) && store.isCorrelated(alert) == Returns(None)
    // the step returns the alert deduplicate, update or create returns, and fails with any exception they raise
    ensures store.isDuplicate(alert).Raises? ==> r.result == Failure(LifecycleError(store.isDuplicate(alert).exception))
    ensures var dup := store.isDuplicate(alert);
      dup.Returns? && dup.value.Some? ==>
        r.result == match store.deduplicate(alert, dup.value.value)
                    case Returns(a) => Success(a)
                    case Raises(e) => Failure(LifecycleError(e))
    ensures var cor := store.isCorrelated(alert);
      store.isDuplicate(alert) == Returns(None) && cor.Raises? ==> r.result == Failure(LifecycleError(cor.exception))
    ensures var cor := store.isCorrelated(alert);
      store.isDuplicate(alert) == Returns(None) && cor.Returns? && cor.value.Some? ==>
        r.result == match store.update(alert, cor.value.value)
                    case Returns(a) => Success(a)
                    case Raises(e) => Failure(LifecycleError(e))
    ensures store.isDuplicate(alert) == Returns(None) && store.isCorrelated(alert) == Returns(None) ==>
              r.result == match store.create(alert)
                          case Returns(a) => Success(a)
                          case Raises(e) => Failure(LifecycleError(e))
  {
    match store.isDuplicate(alert)
    case Raises(e) => Run(Failure(LifecycleError(e)), [IsDuplicate])
    case Returns(Some(m)) =>
      Run(match store.deduplicate(alert, m)
          case Returns(a) => Success(a)
          case Raises(e) => Failure(LifecycleError(e)),
          [IsDuplicate, Deduplicate])
    case Returns(None) =>
      match store.isCorrelated(alert)
      case Raises(e) => Run(Failure(LifecycleError(e)), [IsDuplicate, IsCorrelated])
      case Returns(Some(m)) =>
        Run(match store.update(alert, m)
            case Returns(a) => Success(a)
            case Raises(e) => Failure(LifecycleError(e)),
            [IsDuplicate, IsCorrelated, Update])
      case Returns(None) =>
        Run(match store.create(alert)
            case Returns(a) => Success(a)
            case Raises(e) => Failure(LifecycleError(e)),
            [IsDuplicate, IsCorrelated, Create])
  }

  /** One post-receive iteration: the value left in `updated`. */
  function PostStep(p: Plugin, config: Config, strict: bool, alert: Alert): (r: Run<Option<Alert>>)
    ensures Canonical(r.calls) == [HookCall(PostReceive, p.name, false)]
    ensures forall c :: c in r.calls ==> c == HookCall(PostReceive, p.name, false) || c == HookCall(PostReceive, p.name, true)
    ensures HookCall(PostReceive, p.name, true) in r.calls <==> p.postReceive(alert, config) == Raises(TypeMismatch)
    ensures RetriesPaired(r.calls)
    // a returned value is what the loop merges; on TypeError the legacy call decides
    ensures p.postReceive(alert, config).Returns? ==> r.result == Success(p.postReceive(alert, config).value)
    ensures p.postReceive(alert, config) == Raises(TypeMismatch) ==>
              r.result == match p.postReceiveLegacy(alert)
                          case Returns(v) => Success(v)
                          case Raises(e) => Failure(Raised(e))
    // a skipped or logged fault leaves nothing to merge
    ensures p.postReceive(alert, config).Raises? && p.postReceive(alert, config).exception != TypeMismatch && r.result.Success?
            ==> r.result.value == None
    ensures var out := p.postReceive(alert, config);
      out.Raises? && out.exception.Alerta? ==> r.result == Failure(Raised(out.exception))
    ensures var out := p.postReceive(alert, config);
      out.Raises? && (out.exception.OtherException? || out.exception == NotImplemented) ==>
        r.result == if strict then Failure(PluginError(ApiError, PostReceive, p.name)) else Success(None)
    ensures r.result.Failure? ==> StageFailure(r.result.error, PostReceive, strict, r.calls)
  {
    var call := [HookCall(PostReceive, p.name, false)];
    match Handle(PostReceive, p.name, strict, p.postReceive(alert, config))
    case Abort(f) => Run(Failure(f), call)
    case NoResult => Run(Success(None), call)
    case Got(v) => Run(Success(v), call)
    case Retry => Retried(PostReceive, p.name, p.postReceiveLegacy(alert))
  }

  /** The post-receive loop; it runs no hook at all when the pre-receive loop set `skip`. */
  function PostLoop(ps: seq<Plugin>, config: Config, strict: bool, skip: bool, st: PostState): Run<PostState>
    decreases |ps|
  {
    if |ps| == 0 || skip then Run(Success(st), [])
    else
      var s := PostStep(ps[0], config, strict, st.alert);
      match s.result
      case Failure(f) => Run(Failure(f), s.calls)
      case Success(u) =>
        After(s.calls, PostLoop(ps[1..], config, strict, skip, if u.Some? then PostState(u.value, true) else st))
  }

  /** The end of every successful run: resync when a post-receive hook returned an alert. */
  function Finish(st: PostState, store: Store): Run<Alert> {
    if st.updated then Run(Success(Resync(st.alert, store)), ResyncCalls(st.alert))
    else Run(Success(st.alert), [])
  }

  /** `process_alert` as a whole; `route` is `plugins.routing`, called once per phase. */
  function ProcessAlertSpec(alert: Alert, route: Alert -> Routing, store: Store, strict: bool): Run<Alert> {
    var pre := PreLoop(route(alert).plugins, route(alert).config, strict, alert);
    match pre.result
    case Failure(f) => Run(Failure(f), pre.calls)
    case Success(ps) =>
      var lc := After(pre.calls, Lifecycle(ps.alert, store));
      match lc.result
      case Failure(f) => lc
      case Success(a) =>
        var post := After(lc.calls, PostLoop(route(a).plugins, route(a).config, strict, ps.skip, PostState(a, false)));
        match post.result
        case Failure(f) => Run(Failure(f), post.calls)
        case Success(st) => After(post.calls, Finish(st, store))
  }

  /** One turn of the pre-receive loop, as the loop method takes it. */
  lemma PreLoopTurn(ps: seq<Plugin>, config: Config, strict: bool, alert: Alert, step: Run<Alert>)
    requires |ps| > 0 && !alert.isSuppressed
    requires step == PreStep(ps[0], config, strict, alert)
    ensures step.result.Failure? ==> PreLoop(ps, config, strict, alert) == Run(Failure(step.result.error), step.calls)
    ensures step.result.Success? ==>
              PreLoop(ps, config, strict, alert) == After(step.calls, PreLoop(ps[1..], config, strict, step.result.value))
  {
  }

  /** One turn of the post-receive loop, as the loop method takes it. */
  lemma PostLoopTurn(ps: seq<Plugin>, config: Config, strict: bool, st: PostState, step: Run<Option<Alert>>)
    requires |ps| > 0
    requires step == PostStep(ps[0], config, strict, st.alert)
    ensures step.result.Failure? ==> PostLoop(ps, config, strict, false, st) == Run(Failure(step.result.error), step.calls)
    ensures step.result.Success? ==>
              PostLoop(ps, config, strict, false, st)
              == After(step.calls, PostLoop(ps[1..], config, strict, false,
                                            if step.result.value.Some? then PostState(step.result.value.value, true) else st))
  {
  }

  /** One pre-receive hook call inside its `try`: the canonical call, the legacy retry on
      TypeError, the `except` clauses, and the check that an alert came back. */
  method CallPreReceive(plugin: Plugin, config: Config, strict: bool, alert: Alert)
    returns (r: Result<Alert, Failure>, calls: seq<Call>)
    ensures Run(r, calls) == PreStep(plugin, config, strict, alert)
  {
    calls := [HookCall(PreReceive, plugin.name, false)];
    var returned := Some(alert);
    match Handle(PreReceive, plugin.name, strict, plugin.preReceive(alert, config)) {
      case Got(v) =>
        returned := v;
      case Retry =>
        calls := calls + [HookCall(PreReceive, plugin.name, true)];
        match plugin.preReceiveLegacy(alert) {
          case Returns(v) =>
            returned := v;
          case Raises(e) =>
            return Failure(Raised(e)), calls;
        }
      case Abort(f) =>
        return Failure(f), calls;
      case NoResult =>
    }
    if returned.None? {
      return Failure(MissingAlert(plugin.name)), calls;
    }
    r := Success(returned.value);
  }

  /** The pre-receive `for` loop of `process_alert`. */
  method RunPreReceive(wanted: seq<Plugin>, config: Config, strict: bool, incoming: Alert)
    returns (r: Result<PreState, Failure>, calls: seq<Call>)
    ensures Run(r, calls) == PreLoop(wanted, config, strict, incoming)
  {
    var alert := incoming;
    calls := [];
    var skip := false;
    var i := 0;
    while i < |wanted|
      invariant 0 <= i <= |wanted|
      invariant !skip
      invariant PreLoop(wanted[i..], config, strict, alert).result == PreLoop(wanted, config, strict, incoming).result
      invariant calls + PreLoop(wanted[i..], config, strict, alert).calls == PreLoop(wanted, config, strict, incoming).calls
    {
      var plugin := wanted[i];
      assert wanted[i..][1..] == wanted[i + 1..];
      if alert.isSuppressed {
        skip := true;
        break;
      }
      var step, stepCalls := CallPreReceive(plugin, config, strict, alert);
      PreLoopTurn(wanted[i..], config, strict, alert, Run(step, stepCalls));
      ghost var before := calls;
      calls := calls + stepCalls;
      if step.Failure? {
        return Failure(step.error), calls;
      }
      ConcatAssoc(before, stepCalls, PreLoop(wanted[i + 1..], config, strict, step.value).calls);
      alert := step.value;
      i := i + 1;
    }
    r := Success(PreState(alert, skip));
  }

  /** One post-receive hook call inside its `try`: the value it leaves in `updated`. */
  method CallPostReceive(plugin: Plugin, config: Config, strict: bool, alert: Alert)
    returns (r: Result<Option<Alert>, Failure>, calls: seq<Call>)
    ensures Run(r, calls) == PostStep(plugin, config, strict, alert)
  {
    calls := [HookCall(PostReceive, plugin.name, false)];
    var updated: Option<Alert> := None;
    match Handle(PostReceive, plugin.name, strict, plugin.postReceive(alert, config)) {
      case Got(v) =>
        updated := v;
      case Retry =>
        calls := calls + [HookCall(PostReceive, plugin.name, true)];
        match plugin.postReceiveLegacy(alert) {
          case Returns(v) =>
            updated := v;
          case Raises(e) =>
            return Failure(Raised(e)), calls;
        }
      case Abort(f) =>
        return Failure(f), calls;
      case NoResult =>
    }
    r := Success(updated);
  }

  /** The post-receive `for` loop of `process_alert`. */
  method RunPostReceive(wanted: seq<Plugin>, config: Config, strict: bool, skip: bool, stored: Alert)
    returns (r: Result<PostState, Failure>, calls: seq<Call>)
    ensures Run(r, calls) == PostLoop(wanted, config, strict, skip, PostState(stored, false))
  {
    var alert := stored;
    calls := [];
    var updated := false;
    var i := 0;
    while i < |wanted|
      invariant 0 <= i <= |wanted|
      invariant PostLoop(wanted[i..], config, strict, skip, PostState(alert, updated)).result
                == PostLoop(wanted, config, strict, skip, PostState(stored, false)).result
      invariant calls + PostLoop(wanted[i..], config, strict, skip, PostState(alert, updated)).calls
                == PostLoop(wanted, config, strict, skip, PostState(stored, false)).calls
    {
      var plugin := wanted[i];
      assert wanted[i..][1..] == wanted[i + 1..];
      if skip {
        break;
      }
      var step, stepCalls := CallPostReceive(plugin, config, strict, alert);
      PostLoopTurn(wanted[i..], config, strict, PostState(alert, updated), Run(step, stepCalls));
      ghost var before := calls;
      calls := calls + stepCalls;
      if step.Failure? {
        return Failure(step.error), calls;
      }
      if step.value.Some? {
        alert := step.value.value;
        updated := true;
      }
      ConcatAssoc(before, stepCalls, PostLoop(wanted[i + 1..], config, strict, skip, PostState(alert, updated)).calls);
      i := i + 1;
    }
    r := Success(PostState(alert, updated));
  }

  /** The receive pipeline: both loops, the lifecycle step between them and the resync. */
  method ProcessAlert(incoming: Alert, route: Alert -> Routing, store: Store, strict: bool)
    returns (r: Result<Alert, Failure>, calls: seq<Call>)
    ensures Run(r, calls) == ProcessAlertSpec(incoming, route, store, strict)
  {
    var routing := route(incoming);
    var pre, preCalls := RunPreReceive(routing.plugins, routing.config, strict, incoming);
    calls := preCalls;
    if pre.Failure? {
      return Failure(pre.error), calls;
    }
    var lc := Lifecycle(pre.value.alert, store);
    calls := calls + lc.calls;
    if lc.result.Failure? {
      return Failure(lc.result.error), calls;
    }
    var alert := lc.result.value;

    routing := route(alert);
    var post, postCalls := RunPostReceive(routing.plugins, routing.config, strict, pre.value.skip, alert);
    calls := calls + postCalls;
    if post.Failure? {
      return Failure(post.error), calls;
    }
    alert := post.value.alert;
    if post.value.updated {
      calls := calls + [UpdateTags(alert.tags)];
      calls := calls + [UpdateAttributes(alert.attributes)];
      alert := alert.(attributes := store.updateAttributes(alert, alert.attributes));
    }
    r := Success(alert);
  }

  /** The pre-receive loop makes only `pre_receive` calls, each legacy retry right after
      the canonical call it retries. */
  lemma {:induction false} PreLoopCallShape(ps: seq<Plugin>, config: Config, strict: bool, alert: Alert)
    ensures var r := PreLoop(ps, config, strict, alert);
      && (forall c :: c in r.calls ==> c.HookCall? && c.stage == PreReceive)
      && RetriesPaired(r.calls)
    decreases |ps|
  {
    if |ps| > 0 && !alert.isSuppressed {
      var s := PreStep(ps[0], config, strict, alert);
      if s.result.Success? {
        PreLoopCallShape(ps[1..], config, strict, s.result.value);
        RetriesPairedAppend(s.calls, PreLoop(ps[1..], config, strict, s.result.value).calls);
      }
    }
  }

  /** The post-receive loop makes only `post_receive` calls, each legacy retry right after
      the canonical call it retries. */
  lemma {:induction false} PostLoopCallShape(ps: seq<Plugin>, config: Config, strict: bool, skip: bool, st: PostState)
    ensures var r := PostLoop(ps, config, strict, skip, st);
      && (forall c :: c in r.calls ==> c.HookCall? && c.stage == PostReceive)
      && RetriesPaired(r.calls)
    decreases |ps|
  {
    if |ps| > 0 && !skip {
      var s := PostStep(ps[0], config, strict, st.alert);
      if s.result.Success? {
        var next := if s.result.value.Some? then PostState(s.result.value.value, true) else st;
        PostLoopCallShape(ps[1..], config, strict, skip, next);
        RetriesPairedAppend(s.calls, PostLoop(ps[1..], config, strict, skip, next).calls);
      }
    }
  }

  /** The pre-receive loop calls the plugins in routing order, each at most once (plus its
      legacy retry); it stops early only at a suppressed alert (setting `skip`) or at a
      failure of the last plugin called. */
  lemma {:induction false} PreLoopRun(ps: seq<Plugin>, config: Config, strict: bool, alert: Alert)
    ensures var r := PreLoop(ps, config, strict, alert);
      && CallsPrefix(PreReceive, ps, Canonical(r.calls))
      && (forall c :: c in r.calls ==> c.HookCall? && c.stage == PreReceive)
      && RetriesPaired(r.calls)
      && (r.result.Success? && r.result.value.skip ==> r.result.value.alert.isSuppressed && |Canonical(r.calls)| < |ps|)
      && (r.result.Success? && !r.result.value.skip ==> |Canonical(r.calls)| == |ps|)
      && (r.result.Failure? ==> StageFailure(r.result.error, PreReceive, strict, r.calls))
    decreases |ps|
  {
    PreLoopCallShape(ps, config, strict, alert);
    if |ps| > 0 && !alert.isSuppressed {
      var s := PreStep(ps[0], config, strict, alert);
      CallsPrefixCons(PreReceive, ps, []);
      if s.result.Success? {
        var rest := PreLoop(ps[1..], config, strict, s.result.value);
        PreLoopRun(ps[1..], config, strict, s.result.value);
        CanonicalAppend(s.calls, rest.calls);
        CallsPrefixCons(PreReceive, ps, Canonical(rest.calls));
        if rest.result.Failure? {
          StageFailureAfter(rest.result.error, PreReceive, strict, s.calls, rest.calls);
        }
      }
    }
  }

  /** The post-receive loop calls the plugins in routing order, each at most once (plus its
      legacy retry), and none when `skip` is set; the updated flag, once set, stays set,
      and while it is unset the alert is the one the loop started with. */
  lemma {:induction false} PostLoopRun(ps: seq<Plugin>, config: Config, strict: bool, skip: bool, st: PostState)
    ensures var r := PostLoop(ps, config, strict, skip, st);
      && CallsPrefix(PostReceive, ps, Canonical(r.calls))
      && (forall c :: c in r.calls ==> c.HookCall? && c.stage == PostReceive)
      && RetriesPaired(r.calls)
      && (skip ==> r == Run(Success(st), []))
      && (r.result.Success? && !skip ==> |Canonical(r.calls)| == |ps|)
      && (r.result.Success? && st.updated ==> r.result.value.updated)
      && (r.result.Success? && !r.result.value.updated ==> r.result.value == st)
      && (r.result.Failure? ==> StageFailure(r.result.error, PostReceive, strict, r.calls))
    decreases |ps|
  {
    PostLoopCallShape(ps, config, strict, skip, st);
    if |ps| > 0 && !skip {
      var s := PostStep(ps[0], config, strict, st.alert);
      CallsPrefixCons(PostReceive, ps, []);
      if s.result.Success? {
        var next := if s.result.value.Some? then PostState(s.result.value.value, true) else st;
        var rest := PostLoop(ps[1..], config, strict, skip, next);
        PostLoopRun(ps[1..], config, strict, skip, next);
        CanonicalAppend(s.calls, rest.calls);
        CallsPrefixCons(PostReceive, ps, Canonical(rest.calls));
        if rest.result.Failure? {
          StageFailureAfter(rest.result.error, PostReceive, strict, s.calls, rest.calls);
        }
      }
    }
  }

  /** Post-receive hooks that never leave a value in `updated` (they return None, or are
      skipped or logged) leave the loop state exactly as it was. */
  lemma {:induction false} QuietPostReceive(ps: seq<Plugin>, config: Config, strict: bool, st: PostState)
    requires forall j, a :: 0 <= j < |ps| ==> PostStep(ps[j], config, strict, a).result == Success(None)
    ensures PostLoop(ps, config, strict, false, st).result == Success(st)
    decreases |ps|
  {
    if |ps| > 0 {
      assert PostStep(ps[0], config, strict, st.alert).result == Success(None);
      forall j, a | 0 <= j < |ps[1..]| ensures PostStep(ps[1..][j], config, strict, a).result == Success(None) {
        assert ps[1..][j] == ps[j + 1];
      }
      QuietPostReceive(ps[1..], config, strict, st);
    }
  }

  /** The pre-receive loop stops as soon as the running alert is suppressed: once the
      hooks of the first `k` plugins have left a suppressed alert, and a plugin is left,
      the loop ends there with `skip` set and calls no further hook. */
  lemma {:induction false} PreLoopStopsAtSuppressed(ps: seq<Plugin>, config: Config, strict: bool, alert: Alert, k: nat)
    requires k < |ps|
    requires PreLoop(ps[..k], config, strict, alert).result.Success?
    requires PreLoop(ps[..k], config, strict, alert).result.value.alert.isSuppressed
    ensures PreLoop(ps, config, strict, alert).result
            == Success(PreState(PreLoop(ps[..k], config, strict, alert).result.value.alert, true))
    ensures PreLoop(ps, config, strict, alert).calls == PreLoop(ps[..k], config, strict, alert).calls
    decreases k
  {
    if k > 0 && !alert.isSuppressed {
      assert ps[..k][0] == ps[0];
      assert ps[..k][1..] == ps[1..][..k - 1];
      var s := PreStep(ps[0], config, strict, alert);
      PreLoopStopsAtSuppressed(ps[1..], config, strict, s.result.value, k - 1);
    }
  }

  /** A post-receive hook's returned alert becomes the loop's result: when the last routed
      plugin returns `b` whatever it is passed, a successful loop ends on `b`, flagged. */
  lemma {:induction false} LastPostReceiveWins(ps: seq<Plugin>, config: Config, strict: bool, st: PostState, last: Plugin, b: Alert)
    requires |ps| > 0 && ps[|ps| - 1] == last
    requires forall a :: PostStep(last, config, strict, a).result == Success(Some(b))
    requires PostLoop(ps, config, strict, false, st).result.Success?
    ensures PostLoop(ps, config, strict, false, st).result.value == PostState(b, true)
    decreases |ps|
  {
    var s := PostStep(ps[0], config, strict, st.alert);
    if |ps| == 1 {
      assert s.result == Success(Some(b));
    } else {
      var next := if s.result.value.Some? then PostState(s.result.value.value, true) else st;
      LastPostReceiveWins(ps[1..], config, strict, next, last, b);
    }
  }

  /** An incoming alert that is already suppressed, with at least one pre-receive plugin
      routed, runs no hook at all: receiving it is the lifecycle step alone, without resync. */
  lemma SuppressedAlertRunsNoHooks(alert: Alert, route: Alert -> Routing, store: Store, strict: bool)
    requires alert.isSuppressed && |route(alert).plugins| > 0
    ensures ProcessAlertSpec(alert, route, store, strict) == Lifecycle(alert, store)
  {
    assert PreLoop(route(alert).plugins, route(alert).config, strict, alert) == Run(Success(PreState(alert, true)), []);
    var lc := Lifecycle(alert, store);
    assert [] + lc.calls == lc.calls;
    if lc.result.Success? {
      var a := lc.result.value;
      assert PostLoop(route(a).plugins, route(a).config, strict, true, PostState(a, false)) == Run(Success(PostState(a, false)), []);
      assert lc.calls + [] + [] == lc.calls;
    }
  }

  /** With no plugins routed in either phase, receiving an alert is the lifecycle step alone. */
  lemma NoPluginsReceive(alert: Alert, route: Alert -> Routing, store: Store, strict: bool)
    requires forall a :: route(a).plugins == []
    ensures ProcessAlertSpec(alert, route, store, strict) == Lifecycle(alert, store)
  {
    var lc := Lifecycle(alert, store);
    assert [] + lc.calls == lc.calls;
    if lc.result.Success? {
      var a := lc.result.value;
      assert route(a).plugins == [];
      assert lc.calls + [] + [] == lc.calls;
    }
  }

  /** The suppression short-circuit is set only by the pre-receive loop: a suppressed alert
      with no pre-receive plugin routed still reaches the first post-receive hook. */
  lemma SuppressedAlertWithoutPreReceivePlugins(alert: Alert, route: Alert -> Routing, store: Store, strict: bool)
    requires alert.isSuppressed && route(alert).plugins == []
    requires Lifecycle(alert, store).result.Success?
    requires |route(Lifecycle(alert, store).result.value).plugins| > 0
    ensures HookCall(PostReceive, route(Lifecycle(alert, store).result.value).plugins[0].name, false)
            in ProcessAlertSpec(alert, route, store, strict).calls
  {
    var lc := Lifecycle(alert, store);
    var a := lc.result.value;
    var routed := route(a);
    var post := PostLoop(routed.plugins, routed.config, strict, false, PostState(a, false));
    var first := PostStep(routed.plugins[0], routed.config, strict, a);
    assert first.calls[0] == HookCall(PostReceive, routed.plugins[0].name, false);
    assert post.calls[0] == first.calls[0];
    var whole := ProcessAlertSpec(alert, route, store, strict);
    assert whole.calls[|lc.calls|] == post.calls[0];
  }

  /** The run of `process_alert` once the lifecycle step stored `a`. */
  lemma ReceiveAfterLifecycle(alert: Alert, route: Alert -> Routing, store: Store, strict: bool)
    returns (a: Alert, calls: seq<Call>, st: PostState)
    requires ProcessAlertSpec(alert, route, store, strict).result.Success?
    ensures var pre := PreLoop(route(alert).plugins, route(alert).config, strict, alert);
      && pre.result.Success?
      && Lifecycle(pre.result.value.alert, store).result == Success(a)
      && PostLoop(route(a).plugins, route(a).config, strict, pre.result.value.skip, PostState(a, false)).result == Success(st)
      && ProcessAlertSpec(alert, route, store, strict) == After(calls, Finish(st, store))
      && NoResync(calls)
      && (!st.updated ==> st.alert == a)
  {
    var pre := PreLoop(route(alert).plugins, route(alert).config, strict, alert);
    PreLoopRun(route(alert).plugins, route(alert).config, strict, alert);
    var lc := Lifecycle(pre.result.value.alert, store);
    a := lc.result.value;
    var post := PostLoop(route(a).plugins, route(a).config, strict, pre.result.value.skip, PostState(a, false));
    PostLoopRun(route(a).plugins, route(a).config, strict, pre.result.value.skip, PostState(a, false));
    st := post.result.value;
    assert NoResync(pre.calls);
    assert NoResync(lc.calls);
    assert NoResync(post.calls);
    NoResyncAppend(pre.calls, lc.calls);
    NoResyncAppend(pre.calls + lc.calls, post.calls);
    calls := pre.calls + lc.calls + post.calls;
  }

  /** Resync gating: a successful run resyncs, as its last two calls, exactly when a
      post-receive hook set `alert_was_updated`, and returns the post-receive loop's alert,
      resynced when flagged; without the flag that is the alert the lifecycle step stored. */
  lemma ReceiveResyncGated(alert: Alert, route: Alert -> Routing, store: Store, strict: bool)
    requires ProcessAlertSpec(alert, route, store, strict).result.Success?
    ensures var r := ProcessAlertSpec(alert, route, store, strict);
      var pre := PreLoop(route(alert).plugins, route(alert).config, strict, alert);
      && pre.result.Success?
      && Lifecycle(pre.result.value.alert, store).result.Success?
      && (var a := Lifecycle(pre.result.value.alert, store).result.value;
          var post := PostLoop(route(a).plugins, route(a).config, strict, pre.result.value.skip, PostState(a, false));
          && post.result.Success?
          && (NoResync(r.calls) <==> !post.result.value.updated)
          && r.result.value == (if post.result.value.updated then Resync(post.result.value.alert, store) else a))
      && (!NoResync(r.calls) ==> |r.calls| >= 2 && r.calls[|r.calls| - 2] == UpdateTags(r.result.value.tags)
                                 && r.calls[|r.calls| - 1].UpdateAttributes?)
  {
    var r := ProcessAlertSpec(alert, route, store, strict);
    var a, calls, st := ReceiveAfterLifecycle(alert, route, store, strict);
    if st.updated {
      assert r.calls == calls + ResyncCalls(st.alert);
      assert UpdateTags(st.alert.tags) in r.calls;
    } else {
      assert r.calls == calls + [];
    }
  }
}
