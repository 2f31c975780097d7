/**
 * `AlgorithmExecutor`: the object that owns a strategy, its data portal and
 * its market-data snapshot, and whose `run` drives the strategy from the
 * clock's event stream inside an exit stack.
 *
 * The strategy, the portal and the snapshot are objects: the executor writes
 * the strategy's two needs-update flags and the snapshot's timestamp in
 * place, and its own teardown nulls its references to all three. Calls into
 * them are logged in the ghost `trace` together with the executor's writes;
 * whether a call raises is given by a `Faults` value.
 */
module Executor {
  import opened Wrappers
  import opened Clock
  import opened ExecutorSpec

  /** The strategy. Only what the executor reads or writes is modelled. */
  class Algorithm {
    const dataFrequency: string
    const tradingCalendar: string
    var portfolioNeedsUpdate: bool
    var accountNeedsUpdate: bool

    constructor (dataFrequency: string, tradingCalendar: string, portfolioNeedsUpdate: bool, accountNeedsUpdate: bool)
      ensures this.dataFrequency == dataFrequency && this.tradingCalendar == tradingCalendar
      ensures this.portfolioNeedsUpdate == portfolioNeedsUpdate && this.accountNeedsUpdate == accountNeedsUpdate
    {
      this.dataFrequency := dataFrequency;
      this.tradingCalendar := tradingCalendar;
      this.portfolioNeedsUpdate := portfolioNeedsUpdate;
      this.accountNeedsUpdate := accountNeedsUpdate;
    }
  }

  /** The data portal; its cache lives outside this model. */
  class DataPortal {
    constructor () {}
  }

  /** The market-data snapshot handed to the strategy (`BarData`). */
  class BarData {
    const dataPortal: DataPortal
    const dataFrequency: string
    var datetime: Option<Timestamp>

    constructor (dataPortal: DataPortal, dataFrequency: string)
      ensures this.dataPortal == dataPortal && this.dataFrequency == dataFrequency
      ensures datetime == None
    {
      this.dataPortal := dataPortal;
      this.dataFrequency := dataFrequency;
      datetime := None;
    }
  }

  /** What the strategy can observe of the executor's writes. */
  function View(algo: Algorithm, data: BarData): Snapshot
    reads algo, data
  {
    Snapshot(data.datetime, algo.portfolioNeedsUpdate, algo.accountNeedsUpdate)
  }

  class AlgorithmExecutor {
    var algo: Algorithm?
    var dataPortal: DataPortal?
    var currentData: BarData?
    const clock: ClockConfig
    ghost var trace: seq<Effect>

    /** The three references are held together or released together. */
    ghost predicate Valid()
      reads this
    {
      (algo == null <==> dataPortal == null) && (algo == null <==> currentData == null)
    }

    predicate Live()
      reads this
    {
      algo != null && dataPortal != null && currentData != null
    }

    predicate Released()
      reads this
    {
      algo == null && dataPortal == null && currentData == null
    }

    /** `AlgorithmExecutor.__init__`: hold the strategy and the portal, build
        the snapshot over the portal at the strategy's data frequency, and
        configure the clock. */
    constructor (algo: Algorithm, dataPortal: DataPortal)
      ensures Valid() && Live()
      ensures this.algo == algo && this.dataPortal == dataPortal
      ensures fresh(currentData)
      ensures currentData.dataPortal == dataPortal && currentData.dataFrequency == algo.dataFrequency
      ensures currentData.datetime == None
      ensures clock == ConfigureClock(algo.tradingCalendar, algo.dataFrequency)
      ensures clock.calendar == algo.tradingCalendar
      ensures clock.beforeTradingStart == TimeOfDay(8, 45) && clock.timezone == "America/New_York"
      ensures clock.minuteEmission <==> algo.dataFrequency == "minute"
      ensures trace == []
    {
      this.dataPortal := dataPortal;
      this.algo := algo;
      currentData := new BarData(dataPortal, algo.dataFrequency);
      clock := ConfigureClock(algo.tradingCalendar, algo.dataFrequency);
      trace := [];
    }

    /** A call into code outside the executor, made while dispatching the
        event at position `k`: it is logged, and it raises as `faults` says. */
    method Invoke(call: Effect, k: nat, faults: Faults) returns (raised: bool)
      requires call.CanRaise()
      modifies this`trace
      ensures trace == old(trace) + [call]
      ensures raised == Raises(faults, k, call)
    {
      trace := trace + [call];
      raised := Raises(faults, k, call);
    }

    /** `every_bar(dt)`. */
    method EveryBar(dt: Timestamp, k: nat, faults: Faults) returns (raised: Option<Effect>)
      requires Live()
      modifies this`trace, algo, currentData
      ensures trace == old(trace) + Attempt(BarPlan(dt), k, faults).done
      ensures raised == Attempt(BarPlan(dt), k, faults).raised
      ensures View(algo, currentData) == Replay(old(View(algo, currentData)), Attempt(BarPlan(dt), k, faults).done)
    {
      ghost var s := View(algo, currentData);
      ghost var t0 := trace;
      BarAttemptCases(dt, k, faults);
      BarReplays(dt, s);
      var r := Invoke(CacheClear, k, faults);
      if r {
        return Some(CacheClear);
      }
      r := Invoke(OnDtChanged(dt), k, faults);
      assert trace == t0 + [CacheClear, OnDtChanged(dt)];
      if r {
        return Some(OnDtChanged(dt));
      }
      currentData.datetime := Some(dt);
      trace := trace + [SetDatetime(dt)];
      r := Invoke(HandleData(dt), k, faults);
      assert trace == t0 + [CacheClear, OnDtChanged(dt), SetDatetime(dt), HandleData(dt)];
      assert View(algo, currentData) == s.(datetime := Some(dt));
      if r {
        return Some(HandleData(dt));
      }
      algo.portfolioNeedsUpdate := true;
      trace := trace + [MarkPortfolio];
      algo.accountNeedsUpdate := true;
      trace := trace + [MarkAccount];
      assert trace == t0 + BarPlan(dt);
      raised := None;
    }

    /** `once_a_day(dt)`. */
    method OnceADay(dt: Timestamp, k: nat, faults: Faults) returns (raised: Option<Effect>)
      requires Live()
      modifies this`trace, currentData
      ensures trace == old(trace) + Attempt(SessionStartPlan(dt), k, faults).done
      ensures raised == Attempt(SessionStartPlan(dt), k, faults).raised
      ensures View(algo, currentData) == Replay(old(View(algo, currentData)), Attempt(SessionStartPlan(dt), k, faults).done)
    {
      SessionStartAttempt(dt, k, faults, View(algo, currentData));
      var r := Invoke(OnDtChanged(dt), k, faults);
      if r {
        return Some(OnDtChanged(dt));
      }
      currentData.datetime := Some(dt);
      trace := trace + [SetDatetime(dt)];
      raised := None;
    }

    /** The body of the dispatch loop for the clock pair at position `k`. */
    method Step(e: ClockEvent, k: nat, faults: Faults) returns (raised: Option<Effect>)
      requires Live()
      modifies this`trace, algo, currentData
      ensures trace == old(trace) + Attempt(Plan(e), k, faults).done
      ensures raised == Attempt(Plan(e), k, faults).raised
      ensures View(algo, currentData) == Replay(old(View(algo, currentData)), Attempt(Plan(e), k, faults).done)
    {
      if e.action == Bar {
        raised := EveryBar(e.dt, k, faults);
      } else if e.action == SessionStart {
        raised := OnceADay(e.dt, k, faults);
      } else if e.action == BeforeTradingStartBar {
        BeforeTradingStartAttempt(e.dt, k, faults, View(algo, currentData));
        var r := Invoke(OnDtChanged(e.dt), k, faults);
        if r {
          return Some(OnDtChanged(e.dt));
        }
        currentData.datetime := Some(e.dt);
        trace := trace + [SetDatetime(e.dt)];
        r := Invoke(BeforeTradingStart, k, faults);
        raised := if r then Some(BeforeTradingStart) else None;
      } else {
        raised := None;
      }
    }

    /** The dispatch `for` loop: the pairs of `events` are handled one at a
        time, in order, until a call raises. */
    method DispatchLoop(events: seq<ClockEvent>, faults: Faults) returns (failure: Option<Fault>)
      requires Live()
      modifies this`trace, algo, currentData
      ensures trace == old(trace) + Dispatch(events, faults).trace
      ensures failure == Dispatch(events, faults).failure
      ensures View(algo, currentData) == Replay(old(View(algo, currentData)), Dispatch(events, faults).trace)
    {
      ghost var a, data := algo, currentData;
      ghost var s0 := View(a, data);
      ghost var t0 := trace;
      failure := None;
      var i := 0;
      while i < |events| && failure.None?
        invariant 0 <= i <= |events|
        invariant algo == a && currentData == data && Live()
        invariant failure == Dispatch(events[..i], faults).failure
        invariant failure.Some? ==> Dispatch(events, faults) == Dispatch(events[..i], faults)
        invariant trace == t0 + Dispatch(events[..i], faults).trace
        invariant View(a, data) == Replay(s0, Dispatch(events[..i], faults).trace)
      {
        LoopTurn(events, i, faults, s0, t0);
        var r := Step(events[i], i, faults);
        if r.Some? {
          failure := Some(Fault(i, r.value));
        }
        i := i + 1;
      }
      if failure.None? {
        assert events[..i] == events;
      }
    }

    /** `run()` over a finite prefix `events` of the clock stream, which then
        ends as `end` says. On a live executor, `on_exit` is registered, the
        API context entered, and the events dispatched in order until one
        raises; on every way out, the API context (if entered) is exited and
        then the references are released. On an executor whose references
        are already released, `run` fails before the exit stack is set up. */
    method Run(events: seq<ClockEvent>, end: StreamEnd, faults: Faults) returns (outcome: Outcome)
      requires Valid()
      modifies this, algo, currentData
      ensures Valid() && Released()
      ensures old(algo) == null ==> outcome == Raised(AlgoReleased) && trace == old(trace)
      ensures old(algo) != null ==>
                && outcome == RunOutcome(events, end, faults)
                && trace == old(trace) + RunTrace(events, faults)
                && View(old(algo), old(currentData)) == Replay(old(View(algo, currentData)), RunTrace(events, faults))
    {
      if algo == null {
        return Raised(AlgoReleased);
      }
      var a, data := algo, currentData;
      ghost var s0 := View(a, data);
      ghost var t0 := trace;
      var raised := Invoke(EnterApi, 0, faults);
      if raised {
        outcome := Raised(ApiEnterFailed);
      } else {
        var failure := DispatchLoop(events, faults);
        if failure.Some? {
          outcome := Raised(CallbackFailed(failure.value.event, failure.value.call));
        } else if end == ClockRaises {
          outcome := Raised(ClockFailed);
        } else {
          outcome := Completed;
        }
        // The exit stack unwinds last in, first out: the API context first.
        trace := trace + [ExitApi];
      }
      // on_exit()
      this.algo := null;
      currentData := null;
      dataPortal := null;
      trace := trace + [OnExit];
      RunTraceSteps(t0, events, faults);
      RunReplay(s0, events, faults);
    }
  }
}
