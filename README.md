# pingtool core, modelled in Dafny

pingtool probes a set of network targets at a fixed cadence and shows live statistics for each of them in a terminal table. This project models the core of that program and proves properties of the model:

- **The per-target aggregator.** A `Request` folds every probe outcome into a live `RequestMetrics` record in O(1). It keeps counters, loss, last/min/max delay and a running mean derived from `average_time_sum_ms`. It also has a start/stop lifecycle (`request.dfy`, module `RequestService`).
- **The metrics record.** This covers its defaults, `reset_values`, the rounded snapshot `get_values_formated` and the string view `convert_to_view` (`metrics.dfy`, module `RequestModels`).
- **The registry.** `PingManager` maps each address to its list of requests. It starts requests as it adds them, and stops and forgets them on removal. It also turns updates and removals into messages on one FIFO queue (`manager.dfy`, module `Manager`; the message and queue are in `queues.dfy`, module `Queues`).
- **The consumer.** `CLIView` drains the queue into an address → snapshot table through a dispatch table keyed by the message tag. It also encodes a trend of delays as block characters (`cli.dfy`, module `CliView`). The trend uses `scale_value` (`util_view.dfy`, module `ViewUtil`).

How the model is built:

- **Concurrency.** The asyncio concurrency is not modelled. `__update_metrics` never awaits, so a burst of `callers_number` concurrent probes is the same as that many atomic folds in completion order. The model takes that completion order as an input (`Request.Burst`, `Request.ManageRequests`).
- **Probe outcomes.** The network probe is the datatype `ProbeOutcome`. It is a number (success), `True`/`False`, `None`, or a raised exception (all failures).
- **Clock.** Clock readings are parameters.
- **Rounding and `str`.** Python's `round` and `str` are function-typed parameters, left uninterpreted.
- **Numbers.** Delays, sums and percentages are `real`, and counters are `nat`.
- **Global state.** The class-level dicts and queues of `PingManager` and `CLIView` are fields of one object each.
- **Shared queue.** The queue both sides share is one `UpdateQueue` object that both hold a reference to.
- **Update callback.** `Request.RunRequest` returns the snapshot the callback would receive. `PingManager.ProbeCompleted` passes that snapshot to `__request_updated_handler`, which is the callback `add_request` installs.

Where the code and the documented design disagree, the model follows the code:

- `reset_values` sets the timing fields to `0` instead of back to `None`.
- `stop` does not clear `average_time_sum_ms`.
- `__render_histogram` reads a `histogram_values` field that `RequestMetrics` does not have.

See "## Findings".

## Model

| member | source | states |
|---|---|---|
| `RequestModels.Defaults` | models/request.py:18-28 | a fresh record keeps `callers_number`, has every counter and the loss at 0 and every timing field undefined |
| `RequestModels.RequestMetrics.constructor` | models/request.py:18-28 | constructing the live record yields exactly those defaults |
| `RequestModels.Metrics.Reset` | models/request.py:30-38 | reset keeps `callers_number`, zeroes counters and loss, and sets every timing field to the number 0 (not `None`) |
| `RequestModels.RequestMetrics.ResetValues` | models/request.py:30-38 | the live record's new value is the reset of its old value |
| `RequestModels.ResetIdempotent` | models/request.py:30-38 | resetting twice equals resetting once |
| `RequestModels.Metrics.GetValuesFormated` | models/request.py:40-57 | the snapshot copies the four counters verbatim, rounds the loss, keeps `None` timing fields `None` and rounds the present ones; being a function it leaves the record unchanged |
| `RequestModels.SnapshotKeepsShape` | models/request.py:40-57 | a snapshot of a record whose counters add up still adds up, and has exactly the same timing fields defined |
| `RequestModels.Metrics.ConvertToView` | models/request.py:59-73 | counters through `str` of an int, loss through `str` of a float, a present timing field through `str`, a missing one as `number_of_chars_for_null` dashes |
| `RequestModels.Dashes` | models/request.py:61 | `"-" * n` has `max(n, 0)` characters, all dashes |
| `RequestModels.DefaultPlaceholder` | models/request.py:59-72 | with the default argument a missing timing field is shown as `"---"` |
| `Queues.UpdateQueue.Put` | service/manager.py:46 | a put appends the message at the tail of the queue |
| `Queues.UpdateQueue.Get` | view/cli.py:115 | a get removes and returns the head; an empty queue yields nothing and is unchanged |
| `RequestService.DelayOf` | service/request.py:71-84 | only a numeric ping result is a success, with that delay; `True`/`False`, `None` and an exception are failures |
| `RequestService.Loss` | service/request.py:120 | the loss is `errors / total · 100`: 0 exactly when nothing failed, 100 exactly when everything failed, and within `[0, 100]` when the errors do not exceed the total |
| `RequestService.Fold` | service/request.py:88-120 | total +1; a failure bumps only the errors; a success bumps the successes, adds d·1000 to the sum, sets last to d·1000, sets the average to the delay on the first success and to sum/successes afterwards, and extends min/max; loss = errors/total·100 |
| `RequestService.Request.UpdateMetrics` | service/request.py:88-120 | the in-place field updates leave the record and sum equal to `Fold` of their old values |
| `RequestService.FreshIsCoherent` | service/request.py:26-28 | a new request's record and zero sum satisfy the aggregate invariant `Coherent` |
| `RequestService.FoldKeepsCoherent` | service/request.py:88-120 | every fold keeps `Coherent`: total = successes + errors, loss recomputed with total ≥ 1, timing undefined until the first success, then average = sum/successes with min·n ≤ sum ≤ max·n and min ≤ last ≤ max |
| `RequestService.FoldAllKeepsCoherent` | service/request.py:88-120 | `Coherent` holds after any sequence of folds |
| `RequestService.CoherentBounds` | service/request.py:98-114 | in a coherent aggregate with a success, min ≤ average ≤ max |
| `RequestService.FoldAllCounts` | service/request.py:88-120 | over any sequence of outcomes the total grows by their number, successes by the delays among them and errors by the rest |
| `RequestService.UnreachableTarget` | service/request.py:117-120 | a fresh target whose probes all fail shows 100% loss with every timing field undefined |
| `RequestService.AverageExample` | service/request.py:94-102 | successes of 10, 20 and 30 ms average to 20 ms |
| `RequestService.SumTracks` | service/request.py:94-96 | `average_time_sum_ms` grows by exactly the sum of the successful delays folded, each ×1000 |
| `RequestService.MeanOfSuccesses` | service/request.py:94-102 | from a fresh request the average is undefined until a success, then equals the sum of the successful delays ×1000 divided by their number |
| `RequestService.ExtremesOfSuccesses` | service/request.py:104-114 | from a fresh request min and max are defined exactly when a probe succeeded, and are then the smallest and the largest successful delay ×1000 |
| `RequestService.MinMaxExample` | service/request.py:104-114 | successes of 50, 10 and 30 ms give min 10 ms and max 50 ms |
| `RequestService.StopAsWritten` | service/request.py:122-123 | what `stop` leaves: counters zero, timing fields 0, sum unchanged |
| `RequestService.RestartPinsMinimumAtZero` | service/request.py:104-108 | after stop and restart, a positive delay leaves min at 0, and the average uses the stale sum |
| `RequestService.RestartExample` | service/request.py:94-108 | a 100 ms probe, stop, restart, then a 20 ms probe: min 0, average 120, last 20 |
| `RequestService.IntendedStop` | service/request.py:122-123 | the evidently intended reset: record back to the defaults, sum 0 |
| `RequestService.IntendedRestartIsCoherent` | service/request.py:122-123 | after the intended reset any run is coherent again and keeps min ≤ average ≤ max |
| `RequestService.Request.constructor` | service/request.py:11-30 | stores the configuration, builds a fresh record with the defaults and a zero sum, no task |
| `RequestService.Request.Start` | service/request.py:32-36 | a second start raises; otherwise the task exists and nothing else changes |
| `RequestService.Request.Stop` | service/request.py:38-51 | a stop without a task raises `AlreadyStopped` and changes nothing; a stop of a task that ended by raising re-raises that error, leaves the task set and the record unchanged; otherwise the task is gone, the record is reset and the sum is kept |
| `RequestService.Request.TaskRaised` | service/request.py:84-86 | an exception escaping the callback ends the polling task and is kept as the error a later `stop` re-raises |
| `RequestService.Request.ResetMetrics` | service/request.py:122-123 | resets the record through `reset_values` |
| `RequestService.Request.SetUpdateCallback` | service/request.py:53-54 | the callback is installed |
| `RequestService.Request.GetMetrics` | service/request.py:125-126 | the snapshot has the live counters and the same undefined timing fields |
| `RequestService.Request.RunRequest` | service/request.py:69-86 | on a live task that has not raised: folds the mapped outcome, then yields the snapshot for the callback exactly when one is set |
| `RequestService.BurstSize` | service/request.py:62 | `range(callers_number)` issues `callers_number` probes, none when it is not positive |
| `RequestService.Request.Burst` | service/request.py:60-63 | on a live task: exactly `callers_number` folds in completion order, each followed by one notification carrying the snapshot right after that fold |
| `RequestService.SleepDuration` | service/request.py:64-67 | sleeps only when `interval − elapsed > 0`, and then by that positive amount |
| `RequestService.NextBurstStart` | service/request.py:58-67 | the next burst starts at `max(end, start + interval)`: never early, no catch-up |
| `RequestService.Request.ManageRequests` | service/request.py:56-67 | on a live task, the bursts run before cancellation fold all their outcomes in order, each followed by its sleep decision |
| `Manager.Register` | service/manager.py:21-24 | registering appends the request to its address's list (new singleton if absent), other addresses unchanged |
| `Manager.RegisterKeepsWellKeyed` | service/manager.py:21-24 | registering keeps every request filed under its own address in a non-empty list |
| `Manager.RegisterAllKeepsWellKeyed` | service/manager.py:26-29 | so does registering a whole list |
| `Manager.RegisterAllAt` | service/manager.py:26-29 | after registering a list, each address holds its old list followed by the listed requests with that address, in order |
| `Manager.RegisterAllKeys` | service/manager.py:26-29 | registering a list adds exactly the listed addresses as keys |
| `Manager.MatchingAddress` | service/manager.py:38 | the comprehension keeps exactly the requests with the given address |
| `Manager.MatchingKeepsAll` | service/manager.py:38 | in a well-keyed registry the comprehension keeps the whole list |
| `Manager.StopResult` | service/request.py:40-46 | a stop succeeds exactly when the request has a task, was not stopped earlier in the same loop and its task did not raise; with no task it raises `AlreadyStopped`; any other error it raises is the one the task ended with |
| `Manager.StoppedUpToStep` | service/manager.py:40-41 | a successful `stop` of the next request extends the stopped prefix by one: that request loses its task and its record is reset, the rest is untouched |
| `Manager.StopOne` | service/request.py:38-51 | `stop` seen through the state of a list: on success only that request's task flag and record change, otherwise nothing does; task errors never change |
| `Manager.StopNext` | service/manager.py:40-41 | one iteration: the result is `StopResult` of the request's state before the loop, and the stopped prefix grows by one exactly when it succeeds |
| `Manager.StopRequests` | service/manager.py:40-41 | the requests before index `stopped` each had a live task that had not raised, and are now stopped with their records reset; every other request and record is unchanged and no task error changes; all stopped means success, otherwise the result is the raise of `rs[stopped]`: `AlreadyStopped` when it had no task or was listed earlier, else the error its task ended with |
| `Manager.PingManager.constructor` | service/manager.py:7-9 | an empty registry and no queue |
| `Manager.PingManager.SetUpdateQueue` | service/manager.py:11-13 | the queue is set |
| `Manager.PingManager.AddRequest` | service/manager.py:15-24 | installs the callback and starts; a start that raises leaves the registry unchanged, otherwise the request is appended under its address |
| `Manager.StartedStep` | service/manager.py:28-29 | an `add_request` that starts the next element extends the added prefix by one: that element was not running before the loop, is distinct from the earlier ones, and now has a task and a callback; later elements not yet reached are untouched |
| `Manager.RefusedStep` | service/manager.py:28-29 | an `add_request` of the next element that raises leaves it with a task and a callback, and it raised because that element was running before the loop or was listed earlier |
| `Manager.PingManager.AddOne` | service/manager.py:15-24 | `add_request` seen through the flags of the list: only that request's task and callback flags change, both to set; the registry grows as `add_request` says |
| `Manager.PingManager.AddNext` | service/manager.py:28-29 | one iteration: the request is registered exactly when it was not running and not listed earlier, and it ends with a task and a callback; the added prefix grows by one on success, and is followed by the refused element otherwise |
| `Manager.PingManager.AddRequestList` | service/manager.py:26-29 | the registry is that of `add_request` on each element in order up to the first that raises (`added` of them); success exactly when all were added, otherwise `AlreadyStarted` raised by `list[added]`, which was running before the loop or listed earlier; the added elements are distinct, had no task before and now have a task and a callback, `list[added]` too has both, and every later element not among the first `added + 1` keeps its task and callback flags |
| `Manager.PingManager.RemoveRequestsByAddress` | service/manager.py:31-48 | unknown address: `KeyError`, nothing changes; otherwise the requests under it are stopped in order as `StopRequests` states, up to the first stop that raises, which re-raises with registry and queue unchanged; when all were stopped, without a queue it raises with the key still there, and with one exactly one DELETE(address, None) goes to the tail and only that key is dropped |
| `Manager.PingManager.StopAndUnregister` | service/manager.py:40-48 | the same, once the address is known and the comprehension kept the whole list |
| `Manager.PingManager.Unregister` | service/manager.py:43-48 | without a queue it raises and changes nothing; otherwise one DELETE goes to the tail and only the address is dropped; no request or record changes |
| `Manager.PingManager.RequestUpdatedHandler` | service/manager.py:50-55 | without a queue it raises; otherwise exactly one UPDATE(address, metrics) goes to the tail |
| `Manager.PingManager.ProbeCompleted` | service/request.py:84-86 | on a live task that has not raised, a probe completion folds its outcome and enqueues one UPDATE with the request's fresh snapshot; without a queue the handler raises and that error ends the polling task |
| `ViewUtil.ScaleValue` | util/view.py:1-2 | the point (x, result) lies on the line through (in_min, out_min) and (in_max, out_max) |
| `ViewUtil.ScaleAtMin` | util/view.py:1-2 | `scale_value(in_min) = out_min` |
| `ViewUtil.ScaleAtMax` | util/view.py:1-2 | `scale_value(in_max) = out_max` when the input range is not empty |
| `ViewUtil.ScaleMonotone` | util/view.py:1-2 | for increasing ranges the map is monotone |
| `ViewUtil.ScaleInRange` | util/view.py:1-2 | for increasing ranges `[in_min, in_max]` maps into `[out_min, out_max]` |
| `CliView.ApplyHandler` | view/cli.py:123-132 | an UPDATE without metrics raises; with metrics it sets `table[address]` and leaves other entries; a DELETE of an absent address raises, otherwise only that key is removed |
| `CliView.Dispatch` | view/cli.py:116-120 | the message is refused as an unknown operation exactly when its tag has no handler; otherwise the handler for its tag is applied |
| `CliView.InitializedHandlers` | view/cli.py:25-27 | after `__init_handler_methods` UPDATE maps to `__update_request_entry` and DELETE to `__delete_request_entry` |
| `CliView.InitializedDispatch` | view/cli.py:24-27 | after `__init_handler_methods` no message is refused as an unknown tag, and each tag reaches its own handler |
| `CliView.UninitializedDispatch` | view/cli.py:116-118 | with no handler installed every message raises `KeyError` |
| `CliView.Drain` | view/cli.py:113-121 | messages are taken from the head in order; the first that raises is the last one taken |
| `CliView.DrainAppend` | view/cli.py:113-121 | draining two batches in a row equals draining their concatenation |
| `CliView.ProducedStreamFailures` | view/cli.py:123-132 | a stream whose UPDATEs all carry metrics can fail only on a DELETE of an absent address |
| `CliView.DeleteRemovesAddress` | view/cli.py:130-132 | a DELETE for a shown address removes it from the table |
| `CliView.Clamp` | view/cli.py:68-71 | the index is forced into `[0, 7]`, in bounds of `__BLOCKS`, and unchanged when already there |
| `CliView.BlockIndex` | view/cli.py:66-73 | every present value gets an in-bounds block index |
| `CliView.BlockIndexOrdered` | view/cli.py:66-73 | with a monotone rounding exact on 0 and 7, min gets the lowest block, max the highest, and larger values never get lower blocks |
| `CliView.NoTrend` | view/cli.py:55 | when the guard lets a record through, both extremes are defined and distinct, so `scale_value` does not divide by zero; a record with no timing, or with min equal to max, has no trend |
| `CliView.RenderHistogramAsWritten` | view/cli.py:55-58 | as written: empty trend when min or max is missing or they are equal, otherwise an `AttributeError` on `histogram_values` |
| `CliView.HistogramValuesMissing` | view/cli.py:58 | a record with min 10 and max 20 cannot be drawn as written |
| `CliView.RenderHistogram` | view/cli.py:46-75 | empty when min or max is missing or they are equal; otherwise one character per buffered value, a space for `None` and the clamped block otherwise |
| `CliView.TrendAlphabet` | view/cli.py:60-73 | a drawn character is a space exactly where the value is missing, and a block otherwise |
| `CliView.CLIView.constructor` | view/cli.py:16-18 | an empty table, no queue, no handlers |
| `CliView.CLIView.SetUpdateQueue` | view/cli.py:20-22 | the queue is set |
| `CliView.CLIView.InitHandlerMethods` | view/cli.py:24-27 | both tags get their handler |
| `CliView.CLIView.UpdateRequestEntry` | view/cli.py:123-128 | the table changes as `ApplyHandler` says for an update, or not at all when it raises |
| `CliView.CLIView.DeleteRequestEntry` | view/cli.py:130-132 | the table changes as `ApplyHandler` says for a delete, or not at all when it raises |
| `CliView.CLIView.HandleMessage` | view/cli.py:115-120 | a tag without a handler raises `KeyError`; otherwise the installed handler runs |
| `CliView.CLIView.ReceiveUpdates` | view/cli.py:108-121 | without a queue it raises; otherwise the table becomes `Drain` of the queued messages, which are removed from the head up to the first that raises |

## Left out

- asyncio task creation, cancellation and awaiting (service/request.py:36, 43-48) are left out. The task is the flag `running`. The "task did not end" `RuntimeError` of service/request.py:47-48 cannot arise without a scheduler.
- `asyncio.gather`, `asyncio.sleep` and `time.time` are left out. A burst is its completion order, and the sleep is `SleepDuration` of given timestamps.
- `ping3.ping` and `asyncio.to_thread` are a foreign network call. Their result is the input `ProbeOutcome`.
- The `print` of a probe exception (service/request.py:82) is not modelled. Neither are the unused `request_family` field and `__hash__`.
- `RequestService.Request.ManageRequests`: models the finitely many bursts that ran before cancellation, not the endless `while True`.
- `RequestService.Request.Burst`: models only cancellation between bursts, not in the middle of one. A cancelled burst equals a prefix of its folds, because every fold is atomic.
- The `rich` rendering is not modelled: `Live`, `Table`, `__render_table_header`, `__render_table`, `__handle_refresh`, and the task `init` creates (view/cli.py:29-44, 77-106, 113). `init` is modelled only as `InitHandlerMethods`.
- `CliView.CLIView.ReceiveUpdates`: stops where the real loop would wait on an empty queue, instead of waiting for the next message.
- `CliView.CLIView.ReceiveUpdates`: does not model the refresh after each message (view/cli.py:121). That refresh renders every table row through `__render_histogram`, which raises `AttributeError` at view/cli.py:58 for the first row whose min and max are defined and distinct, and so ends the loop. The model keeps draining as if the refresh had succeeded, because the `rich` rendering is not modelled.
- main.py (signals, event loop, hard-coded targets, task clean-up) is not part of this model, and neither is the `data.queues` module it imports.
- IEEE floating point is not modelled. Delays, sums, loss and `scale_value` are exact reals, and `round` and `str` are uninterpreted parameters.
- Python's `str` distinguishes `0` from `0.0`, so after `reset_values` the view shows `0` rather than `0.0`. The model does not capture this.
- `ViewUtil.ScaleValue`: requires a non-empty input range. Python would raise `ZeroDivisionError` on an empty one, but the only caller (view/cli.py:55) returns before that.
- `round(x)` in `__render_histogram` returns an int with banker's rounding. It is an uninterpreted `real -> int` parameter.
- `RequestModels.RequestMetrics.constructor` only models construction with `callers_number` alone. Constructing a record with other explicit field values is used only for snapshots, and there it is `Metrics` itself.
- `Manager.PingManager.AddRequestList`: its index `added` of the first failure is ghost. The source does not return it.
- `Manager.PingManager.ProbeCompleted`: requires a task that has not raised. The other probes of the same burst keep running under `gather` after one raised, and they are not modelled.
- `Manager.StopRequests`: does not state that the stopped requests are pairwise distinct. A repeat makes `StopResult` raise, so they are, but no lemma states it.

## Findings

| source | as written | input that shows it | evidently intended | confidence | as-written member | corrected member |
|---|---|---|---|---|---|---|
| models/request.py:35-38, service/request.py:122-123 | `stop` resets the timing fields to `0` and keeps `average_time_sum_ms`, so after a restart the minimum stays 0 for positive delays and the average is taken over the stale sum | one 100 ms probe, `stop`, `start`, one 20 ms probe: min 0, average 120, last 20 | reset to `None` and a zero sum, so the restarted aggregate satisfies min ≤ average ≤ max again | high, not executed | `RequestService.RestartPinsMinimumAtZero` | `RequestService.IntendedRestartIsCoherent` |
| view/cli.py:58 | `__render_histogram` reads `metrics.histogram_values`, which `RequestMetrics` does not declare (models/request.py:18-28); because the refresh after each message (view/cli.py:121) renders every row, `__receive_updates` ends at the first UPDATE whose record has two distinct extremes | any record with min 10 and max 20 raises `AttributeError` | the trend buffer is supplied with the record | high, not executed | `CliView.HistogramValuesMissing` | `CliView.RenderHistogram` |

The `Request` class keeps the code's reset behaviour (`Request.Stop` ensures `StopAsWritten`), because the model follows the code. `IntendedStop` is the corrected reset, and the restart properties are proved for it. `RenderHistogram` is the corrected histogram function. The view class does not render, because the `rich` rendering that would call it is not modelled.
