# Heat automation: a verified model of the control loop

This project models the decision and control logic of the heat-automation
program in `heatautomation/main.py`. Every quarter-hour the program chooses
between an electric heat pump (driven through Sensibo) and a pellet stove
(driven through KMP). It bases the choice on the electricity spot price and
the outdoor temperature, then switches the devices and logs the decision.

The model has five modules, one file each:

- `Outcomes` (`outcomes.dfy`): optional values and one call of an external
  collaborator. A call either raises or returns a value. A collaborator's
  behaviour is a `Script`: the outcome of its call number 0, 1, 2 and so on.
- `RetryExecutor` (`retry.dfy`): `retry_function`. The method `RetryFunction`
  keeps the source's `for attempt` loop with its early returns. It returns
  the result, the recorded backoff sleeps and the number of calls. It is
  proved equal to the specification function `Retry`, and lemmas about `Retry`
  describe every possible run.
- `CostModel` (`cost_model.dfy`): `get_effective_heating_capacity`,
  `calculate_energy_cost_with_scop` and `decide_heating_source`, computed over
  exact reals.
- `Scheduler` (`scheduler.dfy`): `wait_until_next_quarter`. A clock reading is
  given as minute, second and microsecond. The wake-up time is an offset of 0
  or 1 hours plus a minute, second and microsecond.
- `Control` (`control.dfy`): `turn_on_heat_pump`, `turn_on_pellet_stove`, one
  pass of the body of `main_loop` (`Cycle`), and a bounded run of the loop
  (`MainLoop`). The heat type (`current_heat_type`) is an explicit state. The
  methods return it together with the device commands issued, the logged
  row, the backoff sleeps and how the cycle ended. The predicate `Agrees`
  holds when each device's last commanded action matches the heat type, so at
  most one source is commanded on. `MainLoop` keeps that predicate as a loop
  invariant.

The price source, the temperature source, the device controllers and the
append to the data log are inputs to a cycle (`CycleInput`). So are the two
clock readings: when the row is logged and when the final wait starts.

Four behaviours of the code shape the model:

- A missing temperature is not retried. `smhi.get_outdoor_temp` returns
  `None` on most failures, and `decide_heating_source` then raises on
  `None >= 0`. It raises itself when the browser cannot start. Either way the
  exception leaves `main_loop` before any device command. The model folds
  both cases into `temperature == None` and ends such a cycle in
  `CycleEnd.Crash`.
- The append to the data log is not guarded either. If opening or writing
  the file raises, the loop ends after that cycle's device commands and its
  change of heat type. The model ends such a cycle in `CycleEnd.Crash` with
  the new heat type, the commands and no row.
- 0.94875, 3.0 and 5.0 are literals in `decide_heating_source`, not
  parameters. Only the price threshold and the SCOP are parameters.
- The price source can return `None` itself. `retry_function` does not retry
  then, because only a raised exception triggers a retry. The cycle treats
  that `None` exactly like exhausted retries.

## Model

| member | source | states |
|---|---|---|
| RetryExecutor.RetryFunction | heatautomation/main.py:32-42 | The loop's result, recorded sleeps and call count equal the run `Retry` describes |
| RetryExecutor.RetryFrom | heatautomation/main.py:33-42 | The operation is called at most `retries` times, at least once when `retries > 0`, and there is one sleep fewer than calls, so none after the last attempt |
| RetryExecutor.RetryReturnsFirstSuccess | heatautomation/main.py:33-35 | The first call that does not raise decides the run: its value is returned unchanged, even when it is `None`, after `k + 1` calls and the `k` backoff sleeps |
| RetryExecutor.RetryExhausted | heatautomation/main.py:36-42 | When all `retries` attempts raise, the result is `None` rather than an exception, after exactly `retries` calls and `retries - 1` sleeps |
| RetryExecutor.RetrySucceedsIff | heatautomation/main.py:33-42 | A value is returned exactly when one of the first `retries` calls does not raise |
| RetryExecutor.SleepsAreExponential | heatautomation/main.py:38-39 | The `i`-th sleep, counting from 0, lasts `delay * 2^i` seconds |
| RetryExecutor.FailTwiceThenSucceed | heatautomation/main.py:32-41 | With the defaults, fail, fail, succeed returns the third value after sleeping exactly 5 and then 10 seconds |
| CostModel.EffectiveHeatingCapacity | heatautomation/main.py:59-67 | The heat pump's capacity is one of 6.5, 4.0, 3.6 and 2.6 kW |
| CostModel.CapacityBands | heatautomation/main.py:59-67 | Over whole degrees: 6.5 kW iff t >= 0, 4.0 iff -12 <= t < 0, 3.6 iff -17 <= t <= -13, 2.6 iff t <= -18 |
| CostModel.CapacityMonotone | heatautomation/main.py:59-67 | A warmer temperature never gives a lower capacity |
| CostModel.EnergyCostWithScop | heatautomation/main.py:70-72 | The cost times the SCOP equals the capacity times the spot price |
| CostModel.CostWithinLimitIff | heatautomation/main.py:70-72 | For a positive capacity and SCOP, the cost is within a limit iff the price is at most `limit * scop / capacity` |
| CostModel.CostMonotoneInPrice | heatautomation/main.py:70-72 | For a non-negative capacity and a positive SCOP, a higher price never gives a lower cost |
| CostModel.DecideHeatingSource | heatautomation/main.py:85-95 | The decided capacity is always at least 3 kW; the heat pump comes with its temperature's capacity, the pellet stove with 5 kW |
| CostModel.HeatPumpIff | heatautomation/main.py:70-95 | The heat pump is chosen iff `(capacity / scop) * price <= threshold - 0.94875` and `capacity >= 3.0` |
| CostModel.HeatPumpIffBelowPriceLimit | heatautomation/main.py:70-95 | For a positive SCOP, the heat pump is chosen iff t >= -17 and the price is at most `(threshold - 0.94875) * scop / capacity` |
| CostModel.ColdAlwaysPelletStove | heatautomation/main.py:59-95 | Below -17.5 degrees the decision is the pellet stove at 5 kW, whatever the price |
| CostModel.CheaperKeepsHeatPump | heatautomation/main.py:85-95 | If the heat pump wins at some price, it wins with the same capacity at every lower price |
| CostModel.DefaultExamples | heatautomation/main.py:85-95 | With the defaults: 5 degrees at 0.5 gives the heat pump at 6.5 kW; at 5.0, or at -20 degrees, the pellet stove at 5 kW |
| Scheduler.NextQuarter | heatautomation/main.py:49-55 | The wake-up minute is 0, 15, 30 or 45, second and microsecond are 0, and it is strictly later than now but at most 15 minutes later |
| Scheduler.SleepUntilNextQuarter | heatautomation/main.py:49-56 | The sleep is positive, at most 15 minutes, and ends on a quarter-hour boundary |
| Scheduler.NextQuarterIsEarliest | heatautomation/main.py:51-55 | No quarter-hour boundary lies strictly between now and the wake-up time |
| Scheduler.FullQuarterIffOnBoundary | heatautomation/main.py:49-56 | The sleep is a full 15 minutes exactly when now is already on a boundary |
| Scheduler.RollsOverAtTopOfHour | heatautomation/main.py:51-53 | Minute 60 rolls over: the wake-up time is minute 0 of the next hour exactly when the minute is 45 or later |
| Control.TurnOnHeatPump | heatautomation/main.py:75-77 | Issues Sensibo on, then KMP off, each through the retry loop, and records their backoff sleeps in that order |
| Control.TurnOnPelletStove | heatautomation/main.py:80-82 | Issues KMP on, then Sensibo off, each through the retry loop, and records their backoff sleeps in that order |
| Control.ActivationOrder | heatautomation/main.py:75-82 | A switch turns the new source's device on before it turns the other source's device off |
| Control.Cycle | heatautomation/main.py:111-140 | One pass of the loop body computes the new heat type, commands, written row, ending and sleeps that `CycleSpec` gives, including the log write that raises |
| Control.NoPriceSkipsCycle | heatautomation/main.py:112-116 | Without a spot price there is no decision, no command and no row, the heat type is unchanged, and the cycle sleeps 30 seconds |
| Control.NoTemperatureCrashes | heatautomation/main.py:118-119 | With a price but no temperature, the cycle issues nothing and raises, which ends the loop |
| Control.SameDecisionIssuesNothing | heatautomation/main.py:121-130 | A decision equal to the current heat type issues no command and keeps the state; the row is written and the loop waits for the quarter exactly when the log write does not raise |
| Control.ChangedDecisionSwitches | heatautomation/main.py:121-128 | A different decision issues the new source's two commands in order, and the state becomes that source even if every device call raised |
| Control.RepeatedDecisionIssuesNothing | heatautomation/main.py:121-130 | Of two cycles in a row with the same decision, the second issues zero commands |
| Control.ActivationAgrees | heatautomation/main.py:121-128 | After a switch's two commands, the new source's device was last commanded on and the other one off |
| Control.CycleKeepsAgreement | heatautomation/main.py:121-130 | Every cycle keeps the devices' last commands in agreement with the heat type |
| Control.RecordHoldsDecision | heatautomation/main.py:119-138 | A cycle that decides writes one row exactly when the log write does not raise; the row holds its timestamp, spot price, temperature, source and capacity |
| Control.LogFailureCrashesAfterSwitch | heatautomation/main.py:121-138 | A log write that raises ends the loop after the switch: the commands were issued and the heat type changed, but no row was written |
| Control.MainLoop | heatautomation/main.py:108-140 | A bounded run from no source equals `Simulate`, stops at the first crash keeping that cycle's commands and state, keeps at most one source commanded on, and writes at most one row per cycle |

## Left out

- The external adapters `tibber.py`, `sensibo.py`, `kmp.py`, `smhi.py` and `solis.py` are not part of this model. They appear only as inputs. The price source and each device call are scripts of outcomes: a call raises or returns a price, `None` or nothing. The temperature source is one reading per cycle, or `None`, which also stands for a raise.
- `datalogger.py` is not part of this model. The CSV append becomes a `LogRecord` value returned by the cycle, and the write either succeeds or raises. A raise ends the loop. The header row and the file's contents are not modelled.
- `check_systems` and the warning it may trigger are left out. The probe only reads device connectivity and never changes the heat type.
- Log messages are left out, including the error reported for each failed retry attempt.
- `time.sleep` and `datetime.now()` are left out. Sleeps are recorded as numbers, and the clock is an input giving minute, second and microsecond. The date and hour of the wake-up time are reduced to an offset of 0 or 1 hours.
- The endless `while True` is modelled as a finite sequence of cycles.
- A zero SCOP is not modelled: the cost functions require a non-zero SCOP, and the division by zero the program would raise is left out. The loop always passes 3.8.
- Floating point is left out: capacities, costs and thresholds are exact reals, so cases that land exactly on a boundary, such as a cost equal to the adjusted threshold, may decide differently under IEEE arithmetic.
- Exceptions that are not `Exception` subclasses pass through `retry_function` uncaught. An example is the `SystemExit` the price source raises when its API key is missing. This is a start-up configuration failure and is left out.
- `setup.py` holds packaging metadata only.
