# Alerta plugin pipelines and customer assignment, in Dafny

This project models the core of `alerta/utils/api.py` from the Alerta monitoring server
and proves properties of that model. The core has two parts.

- **`assign_customer`** decides which customer a new customer-scoped object belongs to. It
  uses three inputs: the customer the caller asked for, the caller's scopes and the
  caller's own customers. It is modelled in `customer.dfy` as `CustomerScope.AssignCustomer`,
  a pure function that returns either a customer (or none) or a 400 `ApiError`.
- **The five plugin pipelines** are `process_alert`, `process_action`, `process_note`,
  `process_status` and `process_delete`. Each is a `for` loop over the plugins that
  `plugins.routing` selects for the alert. Each turn of the loop:
  - checks for an early stop, where the pipeline has one: a suppressed alert, or a delete
    verdict already false (`process_note` has none);
  - calls one hook;
  - classifies what the hook raised:
    - a control signal is re-raised;
    - `NotImplementedError` is skipped where the code catches it;
    - a `TypeError` gets a legacy retry where the code catches it;
    - any other exception is a generic fault. It is wrapped and raised when
      `PLUGINS_RAISE_ON_ERROR` is set, and logged otherwise.
  - merges the returned value into the running `alert` and its companion values, according
    to the value's shape.

  After the loop, tags and attributes are resynced only if some hook changed the alert.
  `process_alert` also runs the lifecycle step between its pre-receive loop and its
  post-receive loop: deduplicate, else correlate and update, else create.

Building blocks (`hooks.dfy`, module `Hooks`):

- **Values.** The alert is a value record (`Alert`). Its suppressed flag, tags and
  attributes are the fields the pipelines read.
- **Plugins.** A plugin (`Plugin`) carries its name and one function per hook. Each hook
  returns an `Outcome`: it either returns a value or raises an `Exception`. The hooks that
  the code retries on `TypeError` also have a legacy function, the old signature without
  `config`.
- **Hook values.** `HookValue` is what an action, note or status hook returns: `None`, an
  Alert, a tuple headed by an Alert, or some other object, of which only its truthiness
  matters.
- **Store.** `Store` supplies the persistence calls of the Alert model as given functions.
- **Classification.** `Classify` and `Handle` are the `except` clauses of every pipeline.
- **Runs.** Every pipeline produces a `Run`: its result (a value or a `Failure`) and the
  trace of the hook and store calls it made, in order.

Each pipeline file has the same layers:

- A `...Step` function and a `Call...` method for one hook call inside its `try`.
- A `...Loop` function: a head-recursive specification of the `for` loop.
- A `Run...` method (or, for delete, `ProcessDelete` itself) with the `while` loop. It is
  proved equal to the `...Loop` function, result and trace.
- A `Process...Spec` function for the whole pipeline, and the `Process...` method that
  implements it.
- Lemmas that relate the specification to what the source promises:
  - the call order, and where the loop stops;
  - which failures can arise and what they name;
  - merges and flags;
  - resync gating;
  - the delete verdict.

The `PLUGINS_RAISE_ON_ERROR` setting is the `strict` parameter. `plugins.routing` is the
`route` parameter, a function from the alert to its plugins and their configuration.

### Behaviour worth noting

- **Post-receive skip.** `skip_plugins` is set only inside the pre-receive loop, when an
  iteration starts on a suppressed alert. So a suppressed alert runs no hook at all only
  when some pre-receive plugin is routed. With none routed, it still runs every
  post-receive hook.
  - `ReceivePipeline.SuppressedAlertRunsNoHooks` proves the first case.
  - `ReceivePipeline.SuppressedAlertWithoutPreReceivePlugins` proves the second.
  - Likewise, when the last routed pre-receive hook returns a suppressed alert, no
    iteration is left to notice it. `skip_plugins` stays false and every post-receive
    hook runs on that alert. `ReceivePipeline.PreLoopRun` states this: `skip` is set only
    while some plugin is still uncalled.
- **Lifecycle on a suppressed alert.** The receive pipeline still runs its lifecycle step
  for a suppressed alert. It returns the stored alert, not the alert it was passed.
- **Unsupported operation.** `NotImplementedError` is caught only in the action, note and
  delete pipelines. In pre-receive, post-receive and status it is a generic fault.
- **Legacy retry.** The code retries on `TypeError` only in pre-receive, post-receive and
  status. In the other pipelines it is a generic fault. What the legacy call raises is not
  caught at all: it propagates as it is, whatever its class.
- **Note resync.** `process_note` calls `update_attributes` but does not assign the result
  back to `alert.attributes`. The other pipelines do.

## Model

| member | source | states |
|---|---|---|
| CustomerScope.AssignCustomer | alerta/utils/api.py:14-28 | A named customer is granted to a caller holding `admin` or the permission. For anyone else it is granted exactly when it is one of their customers, and refused with 400 exactly when it is not. With no customer named: one own customer gives that customer; several give a 400 "ambiguous" error; none gives None. Anything assigned was asked for or is the caller's own; an unprivileged caller never gets a foreign customer. |
| Hooks.Classify | alerta/utils/api.py:40-50 | The `except` clauses, stage by stage. Every AlertaException is re-raised, and only those. `TypeError` is retried exactly in pre-receive, post-receive and status. `NotImplementedError` is skipped exactly in action, note and delete. Any other exception is a generic fault. |
| Hooks.Handle | alerta/utils/api.py:46-50 | A returned value passes through unchanged, and only a returned value does. A control signal aborts with that same exception. An abort is only a re-raised control signal or, under the strict policy, the wrapped error naming the plugin. A retry happens exactly on `TypeError` in a retrying stage. Nothing is produced exactly for a skipped `NotImplementedError` or for a generic fault under the lenient policy. |
| ReceivePipeline.PreStep | alerta/utils/api.py:40-52 | One canonical call, followed by the legacy call exactly when the hook raised `TypeError`; the retry comes right after the canonical call. A returned alert becomes the running alert, and a returned None fails with the SyntaxError naming the plugin. After `TypeError` the legacy call decides in the same way, and what it raises propagates unclassified. A control signal is re-raised unchanged. A generic fault, `NotImplementedError` included, raises RuntimeError naming the plugin under the strict policy, and otherwise keeps the alert. Every failure belongs to this plugin's call. |
| ReceivePipeline.Lifecycle | alerta/utils/api.py:54-65 | `is_duplicate` is called first. A success makes exactly one of these call sequences: deduplicate; or is_correlated then update; or is_correlated then create. Deduplicate happens exactly when a duplicate was found. Update happens only when there is no duplicate and a correlated alert exists; create only when neither exists. The step returns the alert that deduplicate, update or create returns. An exception from any of the five calls fails the step with one ApiError carrying it. |
| ReceivePipeline.PostStep | alerta/utils/api.py:73-87 | The same call shape as PreStep, for `post_receive`. A returned value is what the loop merges. After `TypeError` the legacy call's returned value is merged instead, and what it raises propagates unclassified. A control signal is re-raised unchanged. A generic fault, `NotImplementedError` included, raises ApiError naming the plugin under the strict policy, and otherwise leaves nothing to merge. |
| ReceivePipeline.CallPreReceive | alerta/utils/api.py:40-52 | The imperative `try`/`except` for one pre-receive plugin computes exactly PreStep's result and calls. |
| ReceivePipeline.CallPostReceive | alerta/utils/api.py:73-84 | The imperative `try`/`except` for one post-receive plugin computes exactly PostStep's result and calls. |
| ReceivePipeline.RunPreReceive | alerta/utils/api.py:35-52 | The `while` loop yields the specified pre-receive run: the result, including `skip_plugins`, and the call trace. |
| ReceivePipeline.RunPostReceive | alerta/utils/api.py:69-87 | The `while` loop yields the specified post-receive run: the final alert, `alert_was_updated` and the call trace. |
| ReceivePipeline.ProcessAlert | alerta/utils/api.py:31-93 | The whole receive pipeline (pre-receive loop, lifecycle, re-routing, post-receive loop, gated resync) yields the specified result and call trace. |
| ReceivePipeline.PreLoopRun | alerta/utils/api.py:35-52 | Pre-receive hooks are called in routing order, a prefix of the plugins. Every call is a pre-receive call, and each legacy retry comes right after the canonical call to the same plugin. `skip` is set only for a suppressed alert, and only while some plugin is still uncalled, so a suppression by the last hook leaves it unset. A successful run without skip has called every plugin. A failure belongs to the last plugin called. |
| ReceivePipeline.PreLoopStopsAtSuppressed | alerta/utils/api.py:36-39 | Once the hooks of the first k plugins have left a suppressed alert and a plugin remains, the loop ends right there with `skip_plugins` set. It returns that alert, and no later hook is called. |
| ReceivePipeline.PreLoopCallShape | alerta/utils/api.py:36-43 | The pre-receive loop makes only pre-receive calls, and each legacy retry comes right after the canonical call to the same plugin. |
| ReceivePipeline.PostLoopRun | alerta/utils/api.py:69-87 | Post-receive hooks are called in routing order, a prefix of the plugins. Each legacy retry comes right after the canonical call to the same plugin. With skip set, no hook runs and nothing changes. Without skip, success means every plugin was called. The updated flag, once set, stays set. While it is unset the alert is the stored one. A failure belongs to the last plugin called. |
| ReceivePipeline.LastPostReceiveWins | alerta/utils/api.py:85-87 | When the last routed post-receive hook returns the same alert whatever it is passed, a successful loop ends on that alert with `alert_was_updated` set: a returned alert replaces the running one. |
| ReceivePipeline.PostLoopCallShape | alerta/utils/api.py:70-77 | The post-receive loop makes only post-receive calls, and each legacy retry comes right after the canonical call to the same plugin. |
| ReceivePipeline.QuietPostReceive | alerta/utils/api.py:73-87 | Post-receive hooks that never return a value leave the stored alert and the flag as they were. |
| ReceivePipeline.SuppressedAlertRunsNoHooks | alerta/utils/api.py:36-39 | A suppressed incoming alert with some pre-receive plugin routed runs no hook at all. Receiving it is exactly the lifecycle step: same result, same calls, no resync. |
| ReceivePipeline.NoPluginsReceive | alerta/utils/api.py:31-93 | With no plugin routed in either phase, receiving is exactly the lifecycle step. |
| ReceivePipeline.SuppressedAlertWithoutPreReceivePlugins | alerta/utils/api.py:35-72 | A suppressed alert with no pre-receive plugin routed still reaches the first post-receive hook, because `skip_plugins` is set only inside the pre-receive loop. |
| ReceivePipeline.ReceiveResyncGated | alerta/utils/api.py:69-93 | A successful receive resyncs exactly when the post-receive loop set `alert_was_updated`, with `update_tags` on the returned alert's tags then `update_attributes` as its last two calls. It then returns the post-receive loop's alert, resynced with the store. Without the flag it returns exactly the alert the lifecycle step stored. |
| ActionPipeline.MergeAction | alerta/utils/api.py:117-124 | A bare Alert replaces only the alert. A 4-tuple replaces alert, action, text and timeout. A 3-tuple replaces all but the timeout. A tuple of any other length replaces nothing. Every tuple sets the flag. None and other values change nothing. The flag is set exactly when it was already set or the value is an Alert or a tuple. |
| ActionPipeline.ActionStep | alerta/utils/api.py:104-115 | One call to `take_action`. A returned value is passed on. `NotImplementedError` leaves nothing. A control signal is re-raised unchanged. A generic fault raises ApiError naming the plugin under the strict policy, and otherwise leaves nothing. No legacy retry. |
| ActionPipeline.CallTakeAction | alerta/utils/api.py:104-115 | The imperative `try`/`except` computes exactly ActionStep. |
| ActionPipeline.RunTakeAction | alerta/utils/api.py:100-124 | The `while` loop, with its suppression `break` and the merge, yields the specified loop run. |
| ActionPipeline.ProcessAction | alerta/utils/api.py:96-130 | The whole action pipeline yields the specified result and call trace. |
| ActionPipeline.ActionLoopRun | alerta/utils/api.py:101-124 | Hooks are called in routing order, each at most once. A suppressed alert calls none and changes nothing. A successful run whose final alert is not suppressed has called every plugin. The flag, once set, stays set, and while it is unset the state is unchanged. A failure belongs to the last plugin called and is a re-raised control signal or the strict ApiError. |
| ActionPipeline.ActionLoopStopsAtSuppressed | alerta/utils/api.py:101-103 | Once the hooks of the first k plugins have left a suppressed alert, the loop is over: result and calls are those of the first k plugins alone. |
| ActionPipeline.QuietActionLoop | alerta/utils/api.py:101-124 | Hooks that never return a value leave the whole running state unchanged. Each of them is called unless the alert is suppressed. |
| ActionPipeline.QuietProcessAction | alerta/utils/api.py:96-130 | With quiet hooks, `process_action` returns exactly the alert, action, text and timeout it was passed, and makes no resync call. |
| ActionPipeline.ActionResyncGated | alerta/utils/api.py:126-130 | A successful run resyncs exactly when the loop's flag is set, with `update_tags` then `update_attributes` as its last two calls. It then returns the loop's action, text and timeout and its alert with the attributes `update_attributes` gave back. Without a resync it returns what it was passed. |
| NotePipeline.MergeNote | alerta/utils/api.py:152-156 | A bare Alert replaces only the alert. A pair replaces alert and text. Anything else, including tuples of other lengths, changes nothing and leaves the flag alone. |
| NotePipeline.NoteStep | alerta/utils/api.py:139-150 | One call to `take_note`. `NotImplementedError` is skipped. A control signal is re-raised unchanged. A generic fault (including `TypeError`) raises ApiError naming the plugin under the strict policy, and otherwise leaves nothing. |
| NotePipeline.CallTakeNote | alerta/utils/api.py:139-150 | The imperative `try`/`except` computes exactly NoteStep. |
| NotePipeline.RunTakeNote | alerta/utils/api.py:137-156 | The `while` loop yields the specified loop run. |
| NotePipeline.ProcessNote | alerta/utils/api.py:133-162 | The whole note pipeline yields the specified result and call trace. |
| NotePipeline.NoteLoopRun | alerta/utils/api.py:138-156 | A successful note loop has called every routed plugin once, in order, whether the alert is suppressed or not. The flag, once set, stays set, and while it is unset the state is unchanged. A failure belongs to the last plugin called and is a re-raised control signal or the strict ApiError. |
| NotePipeline.NoteResyncKeepsAttributes | alerta/utils/api.py:158-162 | A successful `process_note` returns the loop's alert with its attributes as they were: the resync never writes them back. It resyncs exactly when the flag is set, with `update_tags` then `update_attributes` on that alert's own tags and attributes, last. Without a resync it returns what it was passed. |
| StatusPipeline.MergeStatus | alerta/utils/api.py:185-190 | A falsy value changes nothing. A 3-tuple replaces alert, status and text. A bare Alert replaces only the alert. Any other truthy value makes `alert` a non-Alert, which is a failure. A truthy value always sets the flag. |
| StatusPipeline.StatusStep | alerta/utils/api.py:173-184 | One canonical call, followed by the legacy call exactly when the hook raised `TypeError`; the retry comes right after the canonical call. A returned value is what the loop merges. After `TypeError` the legacy call's returned value is merged instead, and what it raises propagates unclassified. A control signal is re-raised unchanged. A generic fault (including `NotImplementedError`) raises ApiError naming the plugin under the strict policy, and otherwise leaves nothing. |
| StatusPipeline.CallStatusChange | alerta/utils/api.py:173-184 | The imperative `try`/`except`, with its legacy retry, computes exactly StatusStep. |
| StatusPipeline.RunStatusChange | alerta/utils/api.py:169-190 | The `while` loop, with its suppression `break`, the unpacking and the non-Alert failure, yields the specified loop run. |
| StatusPipeline.ProcessStatus | alerta/utils/api.py:165-196 | The whole status pipeline yields the specified result and call trace. |
| StatusPipeline.StatusLoopRun | alerta/utils/api.py:170-190 | Hooks are called in routing order, a prefix of the plugins. Every call is a status call, and each legacy retry comes right after the canonical call to the same plugin. A suppressed alert calls none and changes nothing. A successful run with an unsuppressed final alert has called every plugin. The flag persists, and while it is unset the state is unchanged. Every failure, including the non-Alert one, belongs to the last plugin called. |
| StatusPipeline.StatusLoopCallShape | alerta/utils/api.py:170-177 | The status loop makes only status calls, and each legacy retry comes right after the canonical call to the same plugin. |
| StatusPipeline.StatusLoopStopsAtSuppressed | alerta/utils/api.py:170-172 | Once the hooks of the first k plugins have left a suppressed alert, the loop is over: result and calls are those of the first k plugins alone. |
| StatusPipeline.QuietStatusLoop | alerta/utils/api.py:170-190 | Hooks that never leave a value leave the running state unchanged. |
| StatusPipeline.QuietProcessStatus | alerta/utils/api.py:165-196 | With quiet hooks, `process_status` returns exactly the alert, status and text it was passed, and makes no resync call. |
| StatusPipeline.StatusResyncGated | alerta/utils/api.py:192-196 | A successful run resyncs exactly when the flag is set, with `update_tags` then `update_attributes` last. It then returns the loop's status and text and its alert with the attributes `update_attributes` gave back. Without a resync it returns what it was passed. |
| DeletePipeline.FirstVeto | alerta/utils/api.py:203-206 | The index of the first plugin whose `delete` hook returns false, or the number of plugins when none does. No earlier plugin vetoes. |
| DeletePipeline.DeleteStep | alerta/utils/api.py:205-215 | A verdict already false calls no hook and stays false. Otherwise a returned value becomes the verdict. `NotImplementedError`, and a generic fault under the lenient policy, keep the verdict true. A control signal is re-raised unchanged. Under the strict policy a generic fault raises ApiError naming the plugin. The step yields false exactly when the verdict was false or the plugin vetoes. |
| DeletePipeline.CallDelete | alerta/utils/api.py:205-215 | The imperative `delete = delete and plugin.delete(...)` in its `try` computes exactly DeleteStep. |
| DeletePipeline.ProcessDelete | alerta/utils/api.py:199-217 | The whole delete pipeline, with its `while` loop, yields the specified result and call trace. |
| DeletePipeline.DeleteLoopRun | alerta/utils/api.py:203-215 | A false verdict calls no hook. A standing verdict calls the hooks in order, up to and including the first veto and no further, so no hook after a veto runs or raises. The verdict ends true exactly when no plugin vetoes. A failure is a re-raised control signal or the strict ApiError of a plugin called before any veto. |
| DeletePipeline.DeleteGated | alerta/utils/api.py:203-217 | The alert is deleted from the store, as the last call, exactly when the loop succeeded and no plugin vetoed. The result is true exactly when no plugin vetoed and the store deleted the alert. |

## Left out

- Flask's `g` and `current_app.config`: the scopes, the customers and `PLUGINS_RAISE_ON_ERROR` are parameters.
- `logging.error`: a logged fault is modelled only as the loop going on.
- `plugins.routing`: a given function from the alert to its plugins and configuration. The receive pipeline applies it twice, once to the incoming alert and once to the stored one.
- The persistence layer: `is_duplicate`, `deduplicate`, `is_correlated`, `update`, `create`, `update_attributes` and `delete` are given functions of the `Store`, and the model records which of them were called.
- Failures of `update_tags`, `update_attributes` and `alert.delete()` are not modelled; the model treats those calls as always succeeding.
- In-place mutation by plugins and aliasing: the alert is a value, so a hook that changes the alert it was passed without returning it is not captured.
- Receive hooks return an optional alert. A truthy return value that is not an Alert is not modelled.
- Tuples are headed by an Alert. A tuple whose first element is something else, and the empty tuple, are not modelled.
- Iterable non-tuple values: a list or string of the right length that a hook returns would be unpacked by Python. The model treats every value other than None, an Alert or a tuple as a plain object with a truthiness.
- Exception classes: every control exception the code names is an `AlertaException` subclass. alerta/exceptions.py is not part of this model, so this subclassing is assumed, and all control signals are one variant. `BaseException`s outside `Exception`, such as `KeyboardInterrupt`, are not modelled.
- alerta/models/enums.py is not part of this model; the `admin` scope string is written out, and the permission is a parameter.
- Error messages: wrapped errors carry their class, stage and plugin name, not the message text.
- DeletePipeline.DeleteStep: the verdict is a boolean, the truthiness of what `delete` returned; Python's `and` keeps the raw value, which the model does not carry.
- Concurrency and the HTTP layer around these functions.
