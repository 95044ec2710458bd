/**
 The shared machinery of the five plugin pipelines of alerta/utils/api.py:
 the alert record, the values plugin hooks return, the exceptions they raise,
 the fault classifier (which `except` clause catches what, per pipeline stage),
 the hook invoker (what the pipeline does with one hook outcome under the
 strict or lenient failure policy) and the trace of external calls a pipeline makes.
 */
module Hooks {
  import opened Wrappers

  /** The opaque configuration value routing hands to every plugin of one resolution. */
  type Config = map<string, string>

  /** The fields of an alert the pipelines read or rewrite. `isSuppressed` is the
      alert's computed `is_suppressed` property, taken as given. */
  datatype Alert = Alert(id: string, isSuppressed: bool, tags: seq<string>, attributes: map<string, string>)

  /** A value travelling beside the alert: an action, a note text, a status or a timeout. */
  datatype Datum = Absent | Text(s: string) | Number(n: int)

  /** What an action, note or status hook returns. A tuple's first element is the
      (possibly replaced) alert, the rest are the auxiliary values after it.
      `OtherValue` is any other object (not an Alert, not iterable); only its truthiness matters. */
  datatype HookValue =
    | NoValue
    | AlertValue(alert: Alert)
    | TupleValue(head: Alert, tail: seq<Datum>)
    | OtherValue(truthy: bool)
  {
    /** Python's `bool(value)`: None is falsy, an Alert and a non-empty tuple are truthy. */
    predicate Truthy() {
      match this
      case NoValue => false
      case AlertValue(_) => true
      case TupleValue(_, _) => true
      case OtherValue(t) => t
    }
  }

  /** The domain exceptions of alerta; every one of them derives from AlertaException. */
  datatype AlertaKind = Reject | Heartbeat | Blackout | RateLimit | ForwardingLoop | InvalidAction | ApiErr | OtherAlerta

  /** An exception a hook or a store operation raises. `TypeMismatch` is any TypeError,
      whatever its cause: the legacy signature refusing `config=`, or a fault inside the
      hook's own code alike. */
  datatype Exception =
    | Alerta(kind: AlertaKind)
    | NotImplemented
    | TypeMismatch
    | OtherException(message: string)

  /** One call to foreign code: it returns a value or raises. */
  datatype Outcome<T> = Returns(value: T) | Raises(exception: Exception)

  /** The hook a pipeline invokes; also the stage name its wrapped errors carry. */
  datatype Stage = PreReceive | PostReceive | TakeAction | TakeNote | StatusChange | Delete

  /** A plugin: its name (used in diagnostics) and one function per hook.
      The `...Legacy` fields are the reduced call shape without `config`, tried by the
      three pipelines that retry on TypeError. */
  datatype Plugin = Plugin(
    name: string,
    preReceive: (Alert, Config) -> Outcome<Option<Alert>>,
    preReceiveLegacy: Alert -> Outcome<Option<Alert>>,
    postReceive: (Alert, Config) -> Outcome<Option<Alert>>,
    postReceiveLegacy: Alert -> Outcome<Option<Alert>>,
    takeAction: (Alert, Datum, Datum, Datum, Config) -> Outcome<HookValue>,
    takeNote: (Alert, Datum, Config) -> Outcome<HookValue>,
    statusChange: (Alert, Datum, Datum, Config) -> Outcome<HookValue>,
    statusChangeLegacy: (Alert, Datum, Datum) -> Outcome<HookValue>,
    delete: (Alert, Config) -> Outcome<bool>)

  /** The result of `plugins.routing(alert)`: the ordered plugins and their configuration. */
  datatype Routing = Routing(plugins: seq<Plugin>, config: Config)

  /** The Alert model's persistence operations, as oracles. `isDuplicate` and `isCorrelated`
      return the matching stored alert, if any. */
  datatype Store = Store(
    isDuplicate: Alert -> Outcome<Option<Alert>>,
    deduplicate: (Alert, Alert) -> Outcome<Alert>,
    isCorrelated: Alert -> Outcome<Option<Alert>>,
    update: (Alert, Alert) -> Outcome<Alert>,
    create: Alert -> Outcome<Alert>,
    updateAttributes: (Alert, map<string, string>) -> map<string, string>,
    delete: Alert -> bool)

  /** A call the pipeline makes into foreign code, in the order made. */
  datatype Call =
    | HookCall(stage: Stage, plugin: string, legacy: bool)
    | IsDuplicate | Deduplicate | IsCorrelated | Update | Create
    | UpdateTags(tags: seq<string>)
    | UpdateAttributes(attributes: map<string, string>)
    | DeleteAlert

  /** The Python class of an error the pipeline raises when it wraps a plugin fault. */
  datatype ErrorClass = RuntimeError | ApiError

  /** Why a pipeline call raised. */
  datatype Failure =
      /** an exception propagated unchanged: a control signal, or whatever the legacy retry raised */
    | Raised(exception: Exception)
      /** strict policy: a generic plugin fault wrapped with the plugin's name and the stage */
    | PluginError(errorClass: ErrorClass, stage: Stage, plugin: string)
      /** SyntaxError: a pre-receive hook returned no alert */
    | MissingAlert(plugin: string)
      /** ApiError wrapping any failure of duplicate/correlation detection, update or create */
    | LifecycleError(cause: Exception)
      /** AttributeError: the running "alert" is an object that is not an Alert */
    | NotAnAlert

  /** A pipeline run: its result or the failure it raised, and the foreign calls it made. */
  datatype Run<T> = Run(result: Result<T, Failure>, calls: seq<Call>)

  /** The run `r` preceded by the calls `before`. */
  function After<T>(before: seq<Call>, r: Run<T>): Run<T> {
    Run(r.result, before + r.calls)
  }

  /** Concatenation of call traces is associative. */
  lemma ConcatAssoc(a: seq<Call>, b: seq<Call>, c: seq<Call>)
    ensures (a + b) + c == a + (b + c)
  {
  }

  /** What the `except` clauses of a pipeline do with an exception raised by its hook. */
  datatype Handling = Reraise | Skip | RetryLegacy | Fault

  /** The stages whose hook call is retried without `config` on TypeError. */
  predicate HasLegacyRetry(stage: Stage) {
    stage == PreReceive || stage == PostReceive || stage == StatusChange
  }

  /** The stages with an `except NotImplementedError: pass` clause. */
  predicate SkipsNotImplemented(stage: Stage) {
    stage == TakeAction || stage == TakeNote || stage == Delete
  }

  /** The fault classifier: which `except` clause of the given stage catches `e`. */
  function Classify(stage: Stage, e: Exception): (h: Handling)
    ensures e.Alerta? ==> h == Reraise
    ensures h == Reraise ==> e.Alerta?
    ensures h == RetryLegacy <==> e == TypeMismatch && HasLegacyRetry(stage)
    ensures h == Skip <==> e == NotImplemented && SkipsNotImplemented(stage)
    ensures e.OtherException? ==> h == Fault
  {
    match e
    case Alerta(_) => Reraise
    case TypeMismatch => if HasLegacyRetry(stage) then RetryLegacy else Fault
    case NotImplemented => if SkipsNotImplemented(stage) then Skip else Fault
    case OtherException(_) => Fault
  }

  /** The error class a stage wraps a generic fault in under the strict policy. */
  function WrapperClass(stage: Stage): ErrorClass {
    if stage == PreReceive then RuntimeError else ApiError
  }

  /** What a pipeline does after one canonical hook call. */
  datatype Invoked<T> =
    | Got(value: T)            // the hook returned a value
    | NoResult                 // skipped, or logged under the lenient policy: nothing to merge
    | Retry                    // call the legacy shape instead
    | Abort(failure: Failure)  // the pipeline raises

  /** The hook invoker's treatment of one hook outcome, under the strict (`strict`) or
      lenient failure policy (`PLUGINS_RAISE_ON_ERROR`). */
  function Handle<T>(stage: Stage, name: string, strict: bool, out: Outcome<T>): (r: Invoked<T>)
    ensures out.Returns? ==> r == Got(out.value)
    ensures r.Got? ==> out == Returns(r.value)
    ensures out.Raises? && out.exception.Alerta? ==> r == Abort(Raised(out.exception))
    ensures r.Abort? ==> out.Raises? && ((r.failure == Raised(out.exception) && out.exception.Alerta?)
                                         || (strict && r.failure == PluginError(WrapperClass(stage), stage, name)))
    ensures r.Retry? <==> out == Raises(TypeMismatch) && HasLegacyRetry(stage)
    ensures r.NoResult? <==> out.Raises? && ((out.exception == NotImplemented && SkipsNotImplemented(stage))
                                             || (!strict && Classify(stage, out.exception) == Fault))
  {
    match out
    case Returns(v) => Got(v)
    case Raises(e) =>
      match Classify(stage, e)
      case Reraise => Abort(Raised(e))
      case Skip => NoResult
      case RetryLegacy => Retry
      case Fault => if strict then Abort(PluginError(WrapperClass(stage), stage, name)) else NoResult
  }

  /** The resync calls made when some plugin changed the alert. */
  function ResyncCalls(alert: Alert): seq<Call> {
    [UpdateTags(alert.tags), UpdateAttributes(alert.attributes)]
  }

  /** `alert.attributes = alert.update_attributes(alert.attributes)`. */
  function Resync(alert: Alert, store: Store): Alert {
    alert.(attributes := store.updateAttributes(alert, alert.attributes))
  }

  /** The canonical hook calls of `stage` to every plugin of `ps`, in order. */
  function HookCalls(stage: Stage, ps: seq<Plugin>): seq<Call> {
    seq(|ps|, j requires 0 <= j < |ps| => HookCall(stage, ps[j].name, false))
  }

  /** The calls `calls` are canonical `stage` hook calls to a prefix of `ps`, in order. */
  predicate CallsPrefix(stage: Stage, ps: seq<Plugin>, calls: seq<Call>) {
    |calls| <= |ps| && calls == HookCalls(stage, ps[..|calls|])
  }

  /** Prepending the call to `ps[0]` extends a call prefix of `ps[1..]` to one of `ps`. */
  lemma CallsPrefixCons(stage: Stage, ps: seq<Plugin>, calls: seq<Call>)
    requires |ps| > 0 && CallsPrefix(stage, ps[1..], calls)
    ensures CallsPrefix(stage, ps, [HookCall(stage, ps[0].name, false)] + calls)
  {
    var all := [HookCall(stage, ps[0].name, false)] + calls;
    var want := HookCalls(stage, ps[..|all|]);
    assert |all| == |want|;
    forall j | 0 <= j < |all| ensures all[j] == want[j] {
      if j > 0 {
        assert all[j] == calls[j - 1];
        assert ps[1..][j - 1] == ps[j];
      }
    }
  }

  /** The calls of `calls` that are canonical hook calls (legacy retries dropped). */
  function Canonical(calls: seq<Call>): seq<Call> {
    if |calls| == 0 then []
    else (if calls[0].HookCall? && !calls[0].legacy then [calls[0]] else []) + Canonical(calls[1..])
  }

  /** A canonical call followed by its legacy retry counts as one canonical call, and
      the retry is paired with it. */
  lemma CanonicalRetry(stage: Stage, name: string)
    ensures Canonical([HookCall(stage, name, false), HookCall(stage, name, true)]) == [HookCall(stage, name, false)]
    ensures RetriesPaired([HookCall(stage, name, false)])
    ensures RetriesPaired([HookCall(stage, name, false), HookCall(stage, name, true)])
  {
    var calls := [HookCall(stage, name, false), HookCall(stage, name, true)];
    assert calls[1..] == [HookCall(stage, name, true)];
    assert Canonical(calls[1..]) == [] + Canonical(calls[1..][1..]);
    assert calls[1..][1..] == [];
  }

  /** A legacy retry after a canonical call that raised TypeError: what the legacy call
      returns is the value, and what it raises propagates unclassified. */
  function Retried<T>(stage: Stage, name: string, legacy: Outcome<T>): (r: Run<T>)
    ensures r.calls == [HookCall(stage, name, false), HookCall(stage, name, true)]
    ensures Canonical(r.calls) == [HookCall(stage, name, false)] && RetriesPaired(r.calls)
  {
    CanonicalRetry(stage, name);
    var calls := [HookCall(stage, name, false), HookCall(stage, name, true)];
    match legacy
    case Returns(v) => Run(Success(v), calls)
    case Raises(e) => Run(Failure(Raised(e)), calls)
  }

  /** Filtering distributes over concatenation. */
  lemma {:induction false} CanonicalAppend(a: seq<Call>, b: seq<Call>)
    ensures Canonical(a + b) == Canonical(a) + Canonical(b)
    decreases |a|
  {
    if |a| > 0 {
      assert (a + b)[1..] == a[1..] + b;
      CanonicalAppend(a[1..], b);
    } else {
      assert a + b == b;
    }
  }

  /** Every legacy retry in `calls` comes right after the canonical call it retries. */
  predicate RetriesPaired(calls: seq<Call>) {
    forall i :: 0 <= i < |calls| && calls[i].HookCall? && calls[i].legacy ==>
      0 < i && calls[i - 1] == HookCall(calls[i].stage, calls[i].plugin, false)
  }

  /** Runs whose retries are paired keep them paired when one follows the other. */
  lemma RetriesPairedAppend(a: seq<Call>, b: seq<Call>)
    requires RetriesPaired(a) && RetriesPaired(b)
    ensures RetriesPaired(a + b)
  {
    forall i | 0 <= i < |a + b| && (a + b)[i].HookCall? && (a + b)[i].legacy
      ensures 0 < i && (a + b)[i - 1] == HookCall((a + b)[i].stage, (a + b)[i].plugin, false)
    {
      if i < |a| {
        assert (a + b)[i] == a[i];
        assert (a + b)[i - 1] == a[i - 1];
      } else {
        assert (a + b)[i] == b[i - |a|];
        assert (a + b)[i - 1] == b[i - |a| - 1];
      }
    }
  }

  /** `f` is a failure a loop over `stage` hooks may raise, right after the calls `calls`:
      the last call is to the plugin at fault; a control signal propagates unchanged; an
      exception that is not a control signal propagates only from a legacy retry; a generic
      fault is wrapped, naming the plugin and the stage, only under the strict policy. */
  predicate StageFailure(f: Failure, stage: Stage, strict: bool, calls: seq<Call>) {
    |calls| > 0 && calls[|calls| - 1].HookCall? && calls[|calls| - 1].stage == stage &&
    var last := calls[|calls| - 1];
    match f
    case Raised(e) => e.Alerta? || last.legacy
    case PluginError(c, s, name) => strict && c == WrapperClass(stage) && s == stage && name == last.plugin && !last.legacy
    case MissingAlert(name) => stage == PreReceive && name == last.plugin
    case LifecycleError(_) => false
    case NotAnAlert => stage == StatusChange
  }

  /** A failure attributed to the last calls of a run stays attributed after earlier calls. */
  lemma StageFailureAfter(f: Failure, stage: Stage, strict: bool, before: seq<Call>, calls: seq<Call>)
    requires StageFailure(f, stage, strict, calls)
    ensures StageFailure(f, stage, strict, before + calls)
  {
    assert (before + calls)[|before + calls| - 1] == calls[|calls| - 1];
  }

  /** No tags resync happened among `calls`. */
  predicate NoResync(calls: seq<Call>) {
    forall c :: c in calls ==> !c.UpdateTags?
  }

  /** Runs without a resync make none when one follows the other. */
  lemma NoResyncAppend(a: seq<Call>, b: seq<Call>)
    requires NoResync(a) && NoResync(b)
    ensures NoResync(a + b)
  {
  }
}
