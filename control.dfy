/** The control loop of `main.py`: one cycle fetches the spot price, reads
    the outdoor temperature, decides the heat source, switches the devices
    when the decision differs from the current heat type, records the cycle
    and chooses how long to sleep. */
module Control {
  import opened Outcomes
  import opened RetryExecutor
  import opened CostModel
  import opened Scheduler

  /** `current_heat_type`: no source until the first decision, then the
      source the loop last switched to. */
  datatype HeatType = NoSource | Active(source: HeatSource)

  /** Sensibo drives the heat pump, KMP the pellet stove. */
  datatype Device = Sensibo | Kmp
  datatype Action = On | Off
  datatype Command = Command(device: Device, action: Action)

  /** How every device command behaves when called; its return value is
      ignored by the loop. */
  type Devices = Command -> Script<()>

  /** Seconds the loop sleeps before retrying when no spot price came back. */
  const NoPriceSleep: int := 30

  function DeviceOf(s: HeatSource): Device
  {
    match s
    case HeatPump => Sensibo
    case PelletStove => Kmp
  }

  function Other(s: HeatSource): HeatSource
  {
    match s
    case HeatPump => PelletStove
    case PelletStove => HeatPump
  }

  /** The commands `turn_on_heat_pump` and `turn_on_pellet_stove` issue, in
      order: the new source on first, then the other one off. */
  function Activation(s: HeatSource): seq<Command>
  {
    match s
    case HeatPump => [Command(Sensibo, On), Command(Kmp, Off)]
    case PelletStove => [Command(Kmp, On), Command(Sensibo, Off)]
  }

  /** The backoff sleeps of issuing `cmds` in order, each through
      `retry_function` with its defaults. */
  function CommandSleeps(cmds: seq<Command>, devices: Devices): seq<nat>
  {
    if cmds == [] then []
    else Retry(devices(cmds[0]), DefaultRetries, DefaultDelay).sleeps + CommandSleeps(cmds[1..], devices)
  }

  method TurnOnHeatPump(devices: Devices) returns (issued: seq<Command>, sleeps: seq<nat>)
    ensures issued == Activation(HeatPump)
    ensures sleeps == CommandSleeps(issued, devices)
  {
    // the program ignores what the device calls return, and whether they failed
    var onResult, onSleeps, onCalls := RetryFunction(devices(Command(Sensibo, On)), DefaultRetries, DefaultDelay);
    var offResult, offSleeps, offCalls := RetryFunction(devices(Command(Kmp, Off)), DefaultRetries, DefaultDelay);
    issued := [Command(Sensibo, On), Command(Kmp, Off)];
    sleeps := onSleeps + offSleeps;
    assert issued[1..][1..] == [];
    assert sleeps == onSleeps + (offSleeps + []);
  }

  method TurnOnPelletStove(devices: Devices) returns (issued: seq<Command>, sleeps: seq<nat>)
    ensures issued == Activation(PelletStove)
    ensures sleeps == CommandSleeps(issued, devices)
  {
    // the program ignores what the device calls return, and whether they failed
    var onResult, onSleeps, onCalls := RetryFunction(devices(Command(Kmp, On)), DefaultRetries, DefaultDelay);
    var offResult, offSleeps, offCalls := RetryFunction(devices(Command(Sensibo, Off)), DefaultRetries, DefaultDelay);
    issued := [Command(Kmp, On), Command(Sensibo, Off)];
    sleeps := onSleeps + offSleeps;
    assert issued[1..][1..] == [];
    assert sleeps == onSleeps + (offSleeps + []);
  }

  /** What the collaborators do in one cycle, and the two clock readings it
      takes: when the row is logged and when the final wait starts.
      `logWrite` is the append of the row to the data log, which raises when
      the file cannot be opened or written. */
  datatype CycleInput = CycleInput(
    price: Script<Option<real>>,
    temperature: Option<int>,
    devices: Devices,
    logWrite: Outcome<()>,
    logTime: Clock,
    waitTime: Clock)

  /** One row of the data log. */
  datatype LogRecord = LogRecord(timestamp: Clock, spotPrice: real, outdoorTemp: int, heatSource: HeatSource, capacity: real)

  /** How a cycle ends: a short sleep when no spot price came back, the wait
      for the next quarter-hour (in microseconds) after a decision, or an
      exception that ends the loop (a missing temperature, or a failed write
      of the log row). */
  datatype CycleEnd = FastRetry(seconds: int) | QuarterWait(micros: int) | Crash

  /** Everything one cycle does: the new heat type, the device commands in
      order, the row written to the log (none when the write raised), how it
      ends, and every backoff sleep in order. */
  datatype CycleResult = CycleResult(
    next: HeatType,
    commands: seq<Command>,
    record: Option<LogRecord>,
    end: CycleEnd,
    sleeps: seq<nat>)

  /** `get_spot_price_safe`: `None` whether every attempt raised or the
      price source itself returned `None`. */
  function SpotPrice(fetched: Option<Option<real>>): Option<real>
  {
    match fetched
    case Some(Some(p)) => Some(p)
    case _ => None
  }

  /** The transition of the heat type: a decision equal to the current heat
      type changes nothing; any other switches to it with its two commands. */
  function Transition(state: HeatType, d: HeatSource): (HeatType, seq<Command>)
  {
    if state == Active(d) then (state, []) else (Active(d), Activation(d))
  }

  /** One pass of the body of `main_loop`. */
  function CycleSpec(state: HeatType, input: CycleInput): CycleResult
  {
    var fetch := Retry(input.price, DefaultRetries, DefaultDelay);
    match SpotPrice(fetch.result)
    case None => CycleResult(state, [], None, FastRetry(NoPriceSleep), fetch.sleeps)
    case Some(spotPrice) =>
      match input.temperature
      case None => CycleResult(state, [], None, Crash, fetch.sleeps)
      case Some(outdoorTemp) =>
        var d := Decide(outdoorTemp, spotPrice);
        var (next, commands) := Transition(state, d.source);
        var sleeps := fetch.sleeps + CommandSleeps(commands, input.devices);
        match input.logWrite
        case Raised => CycleResult(next, commands, None, Crash, sleeps)
        case Returned(_) =>
          CycleResult(
            next, commands,
            Some(LogRecord(input.logTime, spotPrice, outdoorTemp, d.source, d.capacity)),
            QuarterWait(SleepUntilNextQuarter(input.waitTime)),
            sleeps)
  }

  /** The decision a cycle makes, if it gets that far. */
  function CycleDecision(input: CycleInput): Option<Decision>
  {
    match SpotPrice(Retry(input.price, DefaultRetries, DefaultDelay).result)
    case None => None
    case Some(spotPrice) =>
      match input.temperature
      case None => None
      case Some(outdoorTemp) => Some(Decide(outdoorTemp, spotPrice))
  }

  method Cycle(state: HeatType, input: CycleInput) returns (r: CycleResult)
    ensures r == CycleSpec(state, input)
  {
    var fetched, fetchSleeps, fetchCalls := RetryFunction(input.price, DefaultRetries, DefaultDelay);
    var spotPrice := SpotPrice(fetched);
    if spotPrice.None? {
      return CycleResult(state, [], None, FastRetry(NoPriceSleep), fetchSleeps);
    }
    if input.temperature.None? {
      // `decide_heating_source` compares None with 0 and raises
      return CycleResult(state, [], None, Crash, fetchSleeps);
    }
    var outdoorTemp := input.temperature.value;
    var decision := DecideHeatingSource(outdoorTemp, spotPrice.value, MaxPriceThreshold, Scop);
    var next, issued, sleeps := state, [], [];
    if decision.source == HeatPump && state != Active(HeatPump) {
      issued, sleeps := TurnOnHeatPump(input.devices);
      next := Active(HeatPump);
    } else if decision.source == PelletStove && state != Active(PelletStove) {
      issued, sleeps := TurnOnPelletStove(input.devices);
      next := Active(PelletStove);
    }
    if input.logWrite.Raised? {
      // the append to the data log is not guarded: its exception ends the loop
      return CycleResult(next, issued, None, Crash, fetchSleeps + sleeps);
    }
    var record := LogRecord(input.logTime, spotPrice.value, outdoorTemp, decision.source, decision.capacity);
    r := CycleResult(next, issued, Some(record), QuarterWait(SleepUntilNextQuarter(input.waitTime)), fetchSleeps + sleeps);
  }

  /** The last action `trace` commands to device `dev`, if any. */
  function LastAction(trace: seq<Command>, dev: Device): Option<Action>
  {
    if trace == [] then None
    else if trace[|trace| - 1].device == dev then Some(trace[|trace| - 1].action)
    else LastAction(trace[..|trace| - 1], dev)
  }

  /** The devices agree with the heat type: before any switch no command was
      issued; afterwards the active source's device was last commanded on and
      the other one off, so at most one source is commanded on. */
  predicate Agrees(state: HeatType, trace: seq<Command>)
  {
    match state
    case NoSource => trace == []
    case Active(s) =>
      LastAction(trace, DeviceOf(s)) == Some(On) && LastAction(trace, DeviceOf(Other(s))) == Some(Off)
  }

  lemma {:induction false} LastActionAppend(a: seq<Command>, b: seq<Command>, dev: Device)
    ensures LastAction(a + b, dev) == if LastAction(b, dev).Some? then LastAction(b, dev) else LastAction(a, dev)
    decreases |b|
  {
    if b != [] {
      var ab := a + b;
      assert ab[|ab| - 1] == b[|b| - 1];
      assert ab[..|ab| - 1] == a + b[..|b| - 1];
      LastActionAppend(a, b[..|b| - 1], dev);
    } else {
      assert a + b == a;
    }
  }

  /** Activation turns the chosen source's device on before the other
      source's device off. */
  lemma ActivationOrder(s: HeatSource)
    ensures Activation(s) == [Command(DeviceOf(s), On), Command(DeviceOf(Other(s)), Off)]
  {
  }

  /** A switch re-establishes agreement whatever was commanded before. */
  lemma ActivationAgrees(trace: seq<Command>, s: HeatSource)
    ensures Agrees(Active(s), trace + Activation(s))
  {
  }

  /** Every cycle keeps the devices in agreement with the heat type. */
  lemma CycleKeepsAgreement(state: HeatType, trace: seq<Command>, input: CycleInput)
    requires Agrees(state, trace)
    ensures Agrees(CycleSpec(state, input).next, trace + CycleSpec(state, input).commands)
  {
    var c := CycleSpec(state, input);
    if c.commands == [] {
      assert trace + c.commands == trace;
    } else {
      ActivationAgrees(trace, c.next.source);
    }
  }

  /** No spot price: no decision, no command, no record, the heat type
      unchanged, and a 30-second sleep instead of the quarter-hour wait. */
  lemma NoPriceSkipsCycle(state: HeatType, input: CycleInput)
    requires SpotPrice(Retry(input.price, DefaultRetries, DefaultDelay).result) == None
    ensures CycleDecision(input) == None
    ensures var c := CycleSpec(state, input);
      c.next == state && c.commands == [] && c.record == None && c.end == FastRetry(30)
  {
  }

  /** A spot price but no temperature: the decision raises, so the cycle
      issues nothing and the loop ends. */
  lemma NoTemperatureCrashes(state: HeatType, input: CycleInput)
    requires SpotPrice(Retry(input.price, DefaultRetries, DefaultDelay).result).Some?
    requires input.temperature == None
    ensures var c := CycleSpec(state, input);
      c.next == state && c.commands == [] && c.record == None && c.end == Crash
  {
  }

  /** A decision equal to the current heat type issues no command and keeps
      the heat type; the cycle still logs its row and waits for the quarter,
      unless the log write raises. */
  lemma SameDecisionIssuesNothing(state: HeatType, input: CycleInput)
    requires CycleDecision(input).Some? && state == Active(CycleDecision(input).value.source)
    ensures var c := CycleSpec(state, input);
      c.next == state && c.commands == []
      && (c.end.QuarterWait? <==> input.logWrite.Returned?)
      && (c.record.Some? <==> input.logWrite.Returned?)
  {
  }

  /** A different decision issues the two commands of the new source, in
      order, and the heat type becomes that source however the device calls
      behaved, even when all their attempts raised. */
  lemma ChangedDecisionSwitches(state: HeatType, input: CycleInput)
    requires CycleDecision(input).Some? && state != Active(CycleDecision(input).value.source)
    ensures var d := CycleDecision(input).value.source; var c := CycleSpec(state, input);
      c.next == Active(d) && c.commands == Activation(d)
  {
  }

  /** Two cycles in a row with the same decision: the second issues no
      command and leaves the heat type where the first put it. */
  lemma RepeatedDecisionIssuesNothing(state: HeatType, first: CycleInput, second: CycleInput)
    requires CycleDecision(first).Some? && CycleDecision(second).Some?
    requires CycleDecision(first).value.source == CycleDecision(second).value.source
    ensures var c1 := CycleSpec(state, first); var c2 := CycleSpec(c1.next, second);
      c2.commands == [] && c2.next == c1.next
  {
  }

  /** A cycle that decides writes one row, holding its own decision and
      inputs, exactly when the log write does not raise. */
  lemma RecordHoldsDecision(state: HeatType, input: CycleInput)
    requires CycleDecision(input).Some?
    ensures var c := CycleSpec(state, input); var d := CycleDecision(input).value;
      (c.record.Some? <==> input.logWrite.Returned?)
      && (c.record.Some? ==>
            c.record.value.heatSource == d.source && c.record.value.capacity == d.capacity
            && c.record.value.outdoorTemp == input.temperature.value
            && c.record.value.spotPrice == SpotPrice(Retry(input.price, DefaultRetries, DefaultDelay).result).value
            && c.record.value.timestamp == input.logTime)
  {
  }

  /** A log write that raises ends the loop only after the decision has
      been applied: the switch's commands were issued and the heat type
      already changed, but no row was written. */
  lemma LogFailureCrashesAfterSwitch(state: HeatType, input: CycleInput)
    requires CycleDecision(input).Some? && input.logWrite.Raised?
    ensures var c := CycleSpec(state, input); var d := CycleDecision(input).value.source;
      c.end == Crash && c.record == None
      && c.next == Active(d) && c.commands == (if state == Active(d) then [] else Activation(d))
  {
  }

  /** What a bounded run of the loop produced: the heat type, every device
      command in order, the logged rows in order, and whether it crashed. */
  datatype RunResult = RunResult(state: HeatType, trace: seq<Command>, records: seq<LogRecord>, crashed: bool)

  function RecordRow(r: Option<LogRecord>): seq<LogRecord>
  {
    match r
    case None => []
    case Some(row) => [row]
  }

  /** Runs the cycles of `inputs` in order from the given state; a crash
      ends the run, keeping what the crashing cycle did before it raised. */
  function Simulate(state: HeatType, trace: seq<Command>, records: seq<LogRecord>, inputs: seq<CycleInput>): RunResult
    decreases |inputs|
  {
    if inputs == [] then RunResult(state, trace, records, false)
    else
      var c := CycleSpec(state, inputs[0]);
      if c.end == Crash then RunResult(c.next, trace + c.commands, records + RecordRow(c.record), true)
      else Simulate(c.next, trace + c.commands, records + RecordRow(c.record), inputs[1..])
  }

  /** `main_loop` over finitely many cycles, from no heat source: every
      device command it issues keeps the devices in agreement with the heat
      type, and it logs at most one row per cycle. */
  method MainLoop(inputs: seq<CycleInput>) returns (r: RunResult)
    ensures r == Simulate(NoSource, [], [], inputs)
    ensures Agrees(r.state, r.trace)
    ensures |r.records| <= |inputs|
  {
    var state, trace, records := NoSource, [], [];
    var i := 0;
    while i < |inputs|
      invariant 0 <= i <= |inputs|
      invariant Simulate(NoSource, [], [], inputs) == Simulate(state, trace, records, inputs[i..])
      invariant Agrees(state, trace)
      invariant |records| <= i
    {
      var c := Cycle(state, inputs[i]);
      assert inputs[i..][1..] == inputs[i + 1..];
      CycleKeepsAgreement(state, trace, inputs[i]);
      state, trace, records := c.next, trace + c.commands, records + RecordRow(c.record);
      if c.end == Crash {
        return RunResult(state, trace, records, true);
      }
      i := i + 1;
    }
    r := RunResult(state, trace, records, false);
  }
}
