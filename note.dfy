/**
 `process_note` of alerta/utils/api.py: the `take_note` hooks run over the running
 (alert, text) for every routed plugin (there is no suppression check here); a returned
 Alert or pair is merged, and tags and attributes are resynced when some hook returned
 one, without the resynced attributes being written back to the alert.
 */
module NotePipeline {
  import opened Wrappers
  import opened Hooks

  /** The loop's running state: `alert, text` and `alert_was_updated`. */
  datatype NoteState = NoteState(alert: Alert, text: Datum, updated: bool)

  /** What `process_note` returns: `(alert, text)`. */
  datatype NoteReply = NoteReply(alert: Alert, text: Datum)

  /** The merge of the value a hook left in `updated`: a bare Alert stands for
      `(alert, text)`, and only a pair replaces the running state and sets the flag. */
  function MergeNote(st: NoteState, updated: HookValue): (r: NoteState)
    ensures updated.AlertValue? ==> r == NoteState(updated.alert, st.text, true)
    ensures updated.TupleValue? && |updated.tail| == 1 ==> r == NoteState(updated.head, updated.tail[0], true)
    ensures !updated.AlertValue? && !(updated.TupleValue? && |updated.tail| == 1) ==> r == st
    ensures r.updated <==> st.updated || updated.AlertValue? || (updated.TupleValue? && |updated.tail| == 1)
  {
    var v := if updated.AlertValue? then TupleValue(updated.alert, [st.text]) else updated;
    if v.TupleValue? && 1 + |v.tail| == 2 then NoteState(v.head, v.tail[0], true)
    else st
  }

  /** One `take_note` call inside its `try`: the value it leaves in `updated`. */
  function NoteStep(p: Plugin, config: Config, strict: bool, st: NoteState): (r: Run<HookValue>)
    ensures r.calls == [HookCall(TakeNote, p.name, false)]
    ensures p.takeNote(st.alert, st.text, config).Returns? ==> r.result == Success(p.takeNote(st.alert, st.text, config).value)
    ensures p.takeNote(st.alert, st.text, config) == Raises(NotImplemented) ==> r.result == Success(NoValue)
    ensures var out := p.takeNote(st.alert, st.text, config);
      out.Raises? && out.exception.Alerta? ==> r.result == Failure(Raised(out.exception))
    ensures var out := p.takeNote(st.alert, st.text, config);
      out.Raises? && (out.exception.OtherException? || out.exception == TypeMismatch) ==>
        r.result == if strict then Failure(PluginError(ApiError, TakeNote, p.name)) else Success(NoValue)
    ensures r.result.Failure? ==> StageFailure(r.result.error, TakeNote, strict, r.calls) && r.result.error != Raised(TypeMismatch)
  {
    var call := [HookCall(TakeNote, p.name, false)];
    match Handle(TakeNote, p.name, strict, p.takeNote(st.alert, st.text, config))
    case Abort(f) => Run(Failure(f), call)
    case Got(v) => Run(Success(v), call)
    case NoResult => Run(Success(NoValue), call)
    case Retry => assert false; Run(Success(NoValue), call)
  }

  /** The `for` loop over the routed plugins. */
  function NoteLoop(ps: seq<Plugin>, config: Config, strict: bool, st: NoteState): Run<NoteState>
    decreases |ps|
  {
    if |ps| == 0 then Run(Success(st), [])
    else
      var s := NoteStep(ps[0], config, strict, st);
      match s.result
      case Failure(f) => Run(Failure(f), s.calls)
      case Success(v) => After(s.calls, NoteLoop(ps[1..], config, strict, MergeNote(st, v)))
  }

  /** `process_note` as a whole; `route` is `plugins.routing`. The resync calls
      `update_attributes` but leaves the alert's attributes as they were. */
  function ProcessNoteSpec(alert: Alert, text: Datum, route: Alert -> Routing, strict: bool): Run<NoteReply>
  {
    var loop := NoteLoop(route(alert).plugins, route(alert).config, strict, NoteState(alert, text, false));
    match loop.result
    case Failure(f) => Run(Failure(f), loop.calls)
    case Success(st) =>
      Run(Success(NoteReply(st.alert, st.text)), if st.updated then loop.calls + ResyncCalls(st.alert) else loop.calls)
  }

  /** One turn of the loop, as the method takes it. */
  lemma NoteLoopTurn(ps: seq<Plugin>, config: Config, strict: bool, st: NoteState, step: Run<HookValue>)
    requires |ps| > 0
    requires step == NoteStep(ps[0], config, strict, st)
    ensures step.result.Failure? ==> NoteLoop(ps, config, strict, st) == Run(Failure(step.result.error), step.calls)
    ensures step.result.Success? ==>
              NoteLoop(ps, config, strict, st) == After(step.calls, NoteLoop(ps[1..], config, strict, MergeNote(st, step.result.value)))
  {
  }

  /** One `take_note` call inside its `try`, with the `except` clauses of the note pipeline. */
  method CallTakeNote(plugin: Plugin, config: Config, strict: bool, st: NoteState)
    returns (r: Result<HookValue, Failure>, calls: seq<Call>)
    ensures Run(r, calls) == NoteStep(plugin, config, strict, st)
  {
    calls := [HookCall(TakeNote, plugin.name, false)];
    var updated := NoValue;
    match Handle(TakeNote, plugin.name, strict, plugin.takeNote(st.alert, st.text, config)) {
      case Got(v) =>
        updated := v;
      case Abort(f) =>
        return Failure(f), calls;
      case NoResult =>
      case Retry =>
        assert false;
    }
    r := Success(updated);
  }

  /** The `for` loop of `process_note` over the `take_note` hooks. */
  method RunTakeNote(wanted: seq<Plugin>, config: Config, strict: bool, start: NoteState)
    returns (r: Result<NoteState, Failure>, calls: seq<Call>)
    ensures Run(r, calls) == NoteLoop(wanted, config, strict, start)
  {
    var st := start;
    calls := [];
    var i := 0;
    while i < |wanted|
      invariant 0 <= i <= |wanted|
      invariant NoteLoop(wanted[i..], config, strict, st).result == NoteLoop(wanted, config, strict, start).result
      invariant calls + NoteLoop(wanted[i..], config, strict, st).calls == NoteLoop(wanted, config, strict, start).calls
    {
      var plugin := wanted[i];
      assert wanted[i..][1..] == wanted[i + 1..];
      var updated, stepCalls := CallTakeNote(plugin, config, strict, st);
      NoteLoopTurn(wanted[i..], config, strict, st, Run(updated, stepCalls));
      ghost var before := calls;
      calls := calls + stepCalls;
      if updated.Failure? {
        return Failure(updated.error), calls;
      }
      st := MergeNote(st, updated.value);
      ConcatAssoc(before, stepCalls, NoteLoop(wanted[i + 1..], config, strict, st).calls);
      i := i + 1;
    }

    r := Success(st);
  }

  /** The note pipeline, step by step as the source runs it. */
  method ProcessNote(alert: Alert, text: Datum, route: Alert -> Routing, store: Store, strict: bool)
    returns (r: Result<NoteReply, Failure>, calls: seq<Call>)
    ensures Run(r, calls) == ProcessNoteSpec(alert, text, route, strict)
  {
    var routing := route(alert);
    var loop, loopCalls := RunTakeNote(routing.plugins, routing.config, strict, NoteState(alert, text, false));
    calls := loopCalls;
    if loop.Failure? {
      return Failure(loop.error), calls;
    }
    var st := loop.value;
    if st.updated {
      calls := calls + [UpdateTags(st.alert.tags)];
      calls := calls + [UpdateAttributes(st.alert.attributes)];
      var _ := store.updateAttributes(st.alert, st.alert.attributes);
    }
    r := Success(NoteReply(st.alert, st.text));
  }

  /** A successful note loop has called every routed plugin once, in order, suppressed
      alert or not; a failed one stopped at the plugin whose failure it reports, a control
      signal re-raised unchanged or, under the strict policy, an ApiError naming that
      plugin. While the flag is unset the state is the one the loop started with. */
  lemma {:induction false} NoteLoopRun(ps: seq<Plugin>, config: Config, strict: bool, st: NoteState)
    ensures var r := NoteLoop(ps, config, strict, st);
      && CallsPrefix(TakeNote, ps, r.calls)
      && (r.result.Success? ==> r.calls == HookCalls(TakeNote, ps))
      && (r.result.Success? && st.updated ==> r.result.value.updated)
      && (r.result.Success? && !r.result.value.updated ==> r.result.value == st)
      && (r.result.Failure? ==> StageFailure(r.result.error, TakeNote, strict, r.calls)
                                && (r.result.error.Raised? ==> r.result.error.exception.Alerta?))
    decreases |ps|
  {
    if |ps| > 0 {
      var s := NoteStep(ps[0], config, strict, st);
      CallsPrefixCons(TakeNote, ps, []);
      if s.result.Success? {
        var next := MergeNote(st, s.result.value);
        var rest := NoteLoop(ps[1..], config, strict, next);
        NoteLoopRun(ps[1..], config, strict, next);
        CallsPrefixCons(TakeNote, ps, rest.calls);
        if rest.result.Failure? {
          StageFailureAfter(rest.result.error, TakeNote, strict, s.calls, rest.calls);
        }
      }
    }
  }

  /** Whatever the hooks return, a successful `process_note` returns the alert of the last
      merge, with the attributes it had there: the resync never rewrites them. */
  lemma NoteResyncKeepsAttributes(alert: Alert, text: Datum, route: Alert -> Routing, strict: bool)
    requires ProcessNoteSpec(alert, text, route, strict).result.Success?
    ensures var r := ProcessNoteSpec(alert, text, route, strict);
      var loop := NoteLoop(route(alert).plugins, route(alert).config, strict, NoteState(alert, text, false));
      && r.result.value.alert == loop.result.value.alert
      && (NoResync(r.calls) <==> !loop.result.value.updated)
      && (NoResync(r.calls) ==> r.result.value == NoteReply(alert, text))
      && (!NoResync(r.calls) ==> |r.calls| >= 2
                                 && r.calls[|r.calls| - 2] == UpdateTags(r.result.value.alert.tags)
                                 && r.calls[|r.calls| - 1] == UpdateAttributes(r.result.value.alert.attributes))
  {
    var start := NoteState(alert, text, false);
    var loop := NoteLoop(route(alert).plugins, route(alert).config, strict, start);
    NoteLoopRun(route(alert).plugins, route(alert).config, strict, start);
    var st := loop.result.value;
    if st.updated {
      assert UpdateTags(st.alert.tags) in loop.calls + ResyncCalls(st.alert);
    }
  }
}
