# pylivetrader's `AlgorithmExecutor`, modelled in Dafny

`AlgorithmExecutor` drives a live trading strategy. Its constructor keeps
the strategy (`algo`) and the data portal. It also builds the market-data
snapshot (`current_data`, a `BarData`) and configures the real-time clock.
`run()` pulls `(dt, action)` pairs from the clock and dispatches each one to
a fixed sequence of calls and writes:

- a `BAR` clears the portal cache, tells the strategy the time
  (`on_dt_changed`), stamps the snapshot, calls `handle_data`, and sets the
  strategy's `portfolio_needs_update` and `account_needs_update` flags;
- a `SESSION_START` tells the strategy the time and stamps the snapshot;
- a `BEFORE_TRADING_START_BAR` tells the strategy the time, stamps the
  snapshot, and calls `before_trading_start`;
- any other action matches no branch and is ignored.

The loop runs inside an `ExitStack`. The stack first registers `on_exit`,
which drops the executor's three references, and then enters the
`LiveTraderAPI` context. So on every way out after the context was
entered, the API context is exited first and the references are released
second. If creating or entering the context raises, the stack never
registered it, and only `on_exit` runs.

The project has four modules:

- `Wrappers` (`wrappers.dfy`): `Option`.
- `Clock` (`clock.dfy`): what the executor sees of the clock. This is the
  action kinds, the `(dt, action)` pairs, how the stream ends after the
  consumed prefix (it stops, or the next pull raises), and the configuration
  `__init__` passes to `RealtimeClock`.
- `ExecutorSpec` (`executor_spec.dfy`): the specification, built from
  functions over the run's effect log.
  - `Plan(e)` is what one event does when nothing raises.
  - `Attempt` stops a plan at the first call that raises. The raising call
    is still logged, because it was invoked.
  - `Dispatch` runs the `for` loop over a finite prefix of the stream.
  - `Replay` rebuilds the state the strategy can observe from the log.
  - `RunTrace` and `RunOutcome` describe a whole `run()`, including the exit
    stack's unwinding.
  - The lemmas state the properties of these functions.
- `Executor` (`executor.dfy`): the objects.
  - `Algorithm` holds the two needs-update flags.
  - `BarData` holds the snapshot's `datetime`.
  - `AlgorithmExecutor` holds `algo`, `dataPortal` and `currentData` (each
    possibly null) and the clock configuration. It also keeps a ghost
    `trace` of effects.
  - `EveryBar`, `OnceADay`, `Step`, `DispatchLoop` and `Run` update these
    fields in place. Each is proved to append exactly the specification's
    log to `trace` and to leave the objects in the state `Replay` predicts.

Whether a foreign call raises is an input, a `Faults` value. It says whether
entering the API context raises, and which call of which event raises
(`Fault(event, call)`). So one proof covers the normal path and every
failure path.

The fields sit where the source puts them: the flags on the strategy, the
timestamp on the snapshot. The executor does not hold them itself.

Three consequences of the code as written, which the model follows:

- An action that matches none of the three branches (lines 76-83 have no
  `else`) is skipped without a write. So after a prefix, the snapshot's timestamp is that of the most
  recent *recognised* event (`LastEventTime`), not of the most recent event.
- `run()` evaluates `algo.event_manager.handle_data` (line 41) before the
  exit stack is set up. So on an executor whose references were already
  released by an earlier run, it fails with no clean-up and no effect. The
  model treats this as `Raised(AlgoReleased)` with the trace unchanged.
- When `on_dt_changed` raises (lines 47, 60 and 81), the snapshot is not
  stamped and the run aborts. So the snapshot is "never stale" only at the points where a
  callback observes it (`SnapshotNeverStale`), not after every event.

## Model

| member | source | states |
|---|---|---|
| Executor.AlgorithmExecutor.constructor | pylivetrader/executor/executor.py:14-34 | the executor holds the given strategy and portal; a fresh snapshot over that portal at the strategy's data frequency starts with no timestamp; the clock gets the strategy's trading calendar, a before-trading-start minute of 08:45 America/New_York, and minute emission exactly when the data frequency is `"minute"`; nothing has been logged |
| ExecutorSpec.BarPlan | pylivetrader/executor/executor.py:43-54 | reference definition of `every_bar`: cache clear, `on_dt_changed(dt)`, stamp `dt`, `handle_data(dt)`, portfolio flag, account flag, in that order |
| ExecutorSpec.SessionStartPlan | pylivetrader/executor/executor.py:56-61 | reference definition of `once_a_day`: `on_dt_changed(dt)`, then stamp `dt` |
| ExecutorSpec.BeforeTradingStartPlan | pylivetrader/executor/executor.py:80-83 | reference definition of the BEFORE_TRADING_START_BAR branch: `on_dt_changed(dt)`, stamp `dt`, then `before_trading_start` |
| ExecutorSpec.Plan | pylivetrader/executor/executor.py:76-83 | reference definition of the `if`/`elif` chain: the branch the action selects, and nothing for an action no branch matches |
| ExecutorSpec.PlanSteps | pylivetrader/executor/executor.py:40-83 | every recognised event calls `on_dt_changed(dt)` and stamps the snapshot with its own `dt`; only a BAR clears the cache, calls `handle_data` and raises the two flags; only a BEFORE_TRADING_START_BAR calls `before_trading_start`; an unrecognised action does nothing (each as an if-and-only-if) |
| ExecutorSpec.Attempt | pylivetrader/executor/executor.py:43-61 | reference definition of an exception ending an event: the steps run in order up to and including the first call that raises, and that call is reported |
| ExecutorSpec.AttemptIsPrefix | pylivetrader/executor/executor.py:43-54 | an event carries out a prefix of its plan: all of it when nothing raises, otherwise up to and including the raising call |
| ExecutorSpec.AttemptStopsAtFirstRaise | pylivetrader/executor/executor.py:43-54 | an event completes iff none of its calls raises; when one raises, it is the last step carried out and no earlier step raised |
| ExecutorSpec.BarAttemptCases | pylivetrader/executor/executor.py:43-54 | the exact log of a BAR in each of its four endings: `cache_clear` raises, `on_dt_changed` raises, `handle_data` raises, or it completes in the order cache clear, `on_dt_changed`, stamp, `handle_data`, portfolio flag, account flag |
| ExecutorSpec.BarTailAttempt | pylivetrader/executor/executor.py:49-54 | once `on_dt_changed` has returned, the rest of a BAR stops right after `handle_data` if it raises, and otherwise also raises both flags |
| ExecutorSpec.BarReplays | pylivetrader/executor/executor.py:49-54 | the observable state each BAR log leaves: nothing before the stamp; the stamp alone after `handle_data` raises; timestamp `dt` and both flags true after a complete bar |
| ExecutorSpec.BarAttempt | pylivetrader/executor/executor.py:43-54 | a BAR completes iff none of its three foreign calls raises; the flags are raised only by a complete bar; the timestamp is set iff `cache_clear` and `on_dt_changed` returned |
| ExecutorSpec.SessionStartAttempt | pylivetrader/executor/executor.py:56-61 | a SESSION_START either raises in `on_dt_changed` with no change, or completes with the timestamp set to `dt` and the flags untouched |
| ExecutorSpec.BeforeTradingStartAttempt | pylivetrader/executor/executor.py:80-83 | a BEFORE_TRADING_START_BAR stamps the snapshot iff `on_dt_changed` returned, then calls `before_trading_start` and raises exactly when that call does; the flags are untouched |
| ExecutorSpec.EventEffect | pylivetrader/executor/executor.py:75-83 | after a recognised event completes, the timestamp is the event's `dt`; each flag becomes true iff it was true or a BAR completed; an unrecognised action changes nothing and logs nothing |
| ExecutorSpec.EventCallbacksSeeFreshSnapshot | pylivetrader/executor/executor.py:47-83 | when `handle_data` or `before_trading_start` is called, the snapshot already carries the event's `dt`, the time the strategy was last told through `on_dt_changed` |
| ExecutorSpec.BarCallbackSeesFreshSnapshot | pylivetrader/executor/executor.py:47-51 | in a BAR, the step handed the snapshot is `handle_data`; before it, the strategy was told `dt` and the snapshot carries `dt` |
| ExecutorSpec.BeforeTradingStartCallbackSeesFreshSnapshot | pylivetrader/executor/executor.py:81-83 | in a BEFORE_TRADING_START_BAR, the step handed the snapshot is `before_trading_start`; before it, the strategy was told `dt` and the snapshot carries `dt` |
| ExecutorSpec.Dispatch | pylivetrader/executor/executor.py:75-83 | a loop failure names an event of the consumed prefix |
| ExecutorSpec.DispatchSteps | pylivetrader/executor/executor.py:75-83 | the loop logs only dispatch steps (it never enters or exits the API context or runs `on_exit`); it fails only on a call listed as raising |
| ExecutorSpec.AttemptSteps | pylivetrader/executor/executor.py:75-83 | one event's steps are all dispatch steps, and an event raises only on a call listed as raising for it |
| ExecutorSpec.LoopTurn | pylivetrader/executor/executor.py:75-83 | one loop iteration: the new log is the old log followed by the event's attempt; the new failure is that attempt's raised call; once it raises, the loop's result is final |
| ExecutorSpec.DispatchStopsAtFailure | pylivetrader/executor/executor.py:75-83 | once a prefix fails, later events of the stream change nothing |
| ExecutorSpec.DispatchInStreamOrder | pylivetrader/executor/executor.py:75-83 | the loop's log is the concatenation, in stream order, of the events' plans; on a failure it is the plans of the events before the failing one, followed by that event's attempt, which raised the reported call |
| ExecutorSpec.CacheClearsCountBars | pylivetrader/executor/executor.py:44-83 | over the events the loop started to dispatch, `cache_clear` was called exactly as many times as there are BAR events |
| ExecutorSpec.EventCacheClears | pylivetrader/executor/executor.py:44-83 | one BAR calls `cache_clear` exactly once, even when it or a later call raises; any other event never calls it |
| ExecutorSpec.DispatchedState | pylivetrader/executor/executor.py:75-83 | after a prefix dispatched without a raise, the timestamp is the last recognised event's `dt` (or the initial one), and each flag is true iff it was true before or some BAR was dispatched |
| ExecutorSpec.SnapshotNeverStale | pylivetrader/executor/executor.py:40-83 | wherever in the loop a callback is handed the snapshot, the strategy has been told a time and the snapshot's timestamp equals it |
| ExecutorSpec.RunTrace | pylivetrader/executor/executor.py:70-72 | reference definition of the exit stack's order: enter the context, the loop's log, exit the context, `on_exit`; only entry and `on_exit` when entering raises |
| ExecutorSpec.RunOutcome | pylivetrader/executor/executor.py:36-83 | reference definition of what `run` ends with: the context's entry error, else the first callback error, else the clock's error, else normal completion |
| ExecutorSpec.RunReplay | pylivetrader/executor/executor.py:63-72 | entering and exiting the API context and `on_exit` change nothing the strategy observes; the run's observable effect is the loop's |
| ExecutorSpec.CleanupOnEveryPath | pylivetrader/executor/executor.py:63-72 | every run over a live executor ends with `on_exit`, exactly once; the API context is exited iff it was entered, exactly once, immediately before `on_exit`; a run completes iff entry, every callback and the clock all succeed |
| ExecutorSpec.FailureEndsDispatch | pylivetrader/executor/executor.py:75-83 | the loop's result is fixed by the events up to and including the one that raised |
| ExecutorSpec.FailFast | pylivetrader/executor/executor.py:70-83 | a run that raises from a callback names an event of the prefix and a call listed as raising, and its log and loop result are those of the prefix ending at that event |
| Executor.AlgorithmExecutor.Invoke | pylivetrader/executor/executor.py:43-51 | a foreign call is appended to the log and raises exactly as the faults say |
| Executor.AlgorithmExecutor.EveryBar | pylivetrader/executor/executor.py:40-54 | `every_bar` appends exactly the BAR attempt to the log, reports the call that raised, and leaves the strategy's flags and the snapshot's timestamp as the replay of that attempt |
| Executor.AlgorithmExecutor.OnceADay | pylivetrader/executor/executor.py:56-61 | `once_a_day` appends exactly the SESSION_START attempt, reports its raise, and leaves the objects as its replay |
| Executor.AlgorithmExecutor.Step | pylivetrader/executor/executor.py:76-83 | the `if`/`elif` chain appends exactly `Attempt(Plan(e))` to the log, reports its raise, and leaves the objects as its replay |
| Executor.AlgorithmExecutor.DispatchLoop | pylivetrader/executor/executor.py:75-83 | the `for` loop appends exactly `Dispatch(events)` to the log, returns its failure, and leaves the objects as the replay of that log |
| Executor.AlgorithmExecutor.Run | pylivetrader/executor/executor.py:36-83 | on a live executor: `run` returns or raises `RunOutcome`, appends `RunTrace`, leaves the strategy and snapshot as its replay, and releases all three references; on a released executor: it raises with no effect |

## Left out

- `RealtimeClock`'s scheduling against the wall clock, the trading calendar and timezone arithmetic are not modelled. The clock's output is a finite input prefix of `(dt, action)` pairs, and timestamps are integers. The clock's constructor arguments are recorded as `ClockConfig`.
- The "runs forever" loop: a run consumes a finite prefix. The stream then stops, or the next pull raises (`StreamEnd`).
- The internals of `BarData` (including `universe_func`, which is not a field of the model), of `data_portal.cache_clear` and of the `LiveTraderAPI` context are not modelled. They appear only as log entries that may raise.
- The strategy's callbacks (`on_dt_changed`, `handle_data` through `algo.event_manager`, `before_trading_start`) are opaque. Each is a log entry that may raise. A callback writing the flags or the snapshot itself is not modelled.
- An exception raised while exiting the `LiveTraderAPI` context, or one that the context suppresses, is not modelled. Exiting always succeeds and lets the original error propagate.
- Exceptions are modelled by where they arise (`RunError`), not by their Python types or `__exit__` arguments.
- The snapshot's initial `datetime`: `BarData`'s constructor is not part of this model, and the model assumes it starts with no timestamp (`BarData.constructor`, `AlgorithmExecutor.constructor`).
- Garbage collection and reference cycles: only the nulling of the three references is modelled.
