/** `wait_until_next_quarter`: sleep until the next quarter-hour of the wall
    clock. Time is counted in whole microseconds from the start of the
    current hour, the resolution of the clock the program reads. */
module Scheduler {

  const MicrosPerSecond: int := 1_000_000
  const MicrosPerMinute: int := 60 * MicrosPerSecond
  const MicrosPerHour: int := 60 * MicrosPerMinute
  const QuarterMicros: int := 15 * MicrosPerMinute

  /** The minute, second and microsecond fields of a clock reading. */
  datatype TimeOfHour = TimeOfHour(minute: int, second: int, micro: int)

  type Clock = t: TimeOfHour
    | 0 <= t.minute < 60 && 0 <= t.second < 60 && 0 <= t.micro < MicrosPerSecond
    witness TimeOfHour(0, 0, 0)

  /** Microseconds since the start of the current hour. */
  function Offset(now: Clock): int
  {
    now.minute * MicrosPerMinute + now.second * MicrosPerSecond + now.micro
  }

  /** A wake-up time: `hours` hours after the start of the current hour,
      then minute, second and microsecond. */
  datatype WakeTime = WakeTime(hours: nat, minute: int, second: int, micro: int)

  function WakeOffset(w: WakeTime): int
  {
    w.hours * MicrosPerHour + w.minute * MicrosPerMinute + w.second * MicrosPerSecond + w.micro
  }

  predicate OnQuarter(now: Clock)
  {
    now.minute % 15 == 0 && now.second == 0 && now.micro == 0
  }

  /** The wake-up time: the next multiple of 15 minutes, rolling minute 60
      over to minute 0 of the next hour. */
  function NextQuarter(now: Clock): (w: WakeTime)
    ensures w.minute in {0, 15, 30, 45} && w.second == 0 && w.micro == 0
    ensures w.hours <= 1
    ensures Offset(now) < WakeOffset(w) <= Offset(now) + QuarterMicros
  {
    var nextQuarterMinute := (now.minute / 15 + 1) * 15;
    if nextQuarterMinute == 60 then WakeTime(1, 0, 0, 0)
    else WakeTime(0, nextQuarterMinute, 0, 0)
  }

  /** How long the loop sleeps at the end of a cycle, in microseconds. */
  function SleepUntilNextQuarter(now: Clock): (micros: int)
    ensures 0 < micros <= QuarterMicros
    ensures (Offset(now) + micros) % QuarterMicros == 0
  {
    WakeOffset(NextQuarter(now)) - Offset(now)
  }

  /** The wake-up time is the NEXT quarter-hour: no quarter-hour boundary
      (a multiple of 15 minutes from the start of the hour) lies strictly
      between now and it. */
  lemma NextQuarterIsEarliest(now: Clock, k: int)
    requires Offset(now) < k * QuarterMicros
    ensures WakeOffset(NextQuarter(now)) <= k * QuarterMicros
  {
  }

  /** Already on a boundary, the loop waits a full quarter hour, and only
      then: otherwise the sleep is shorter. */
  lemma FullQuarterIffOnBoundary(now: Clock)
    ensures SleepUntilNextQuarter(now) == QuarterMicros <==> OnQuarter(now)
  {
  }

  /** From minute 45 on, the wake-up time is minute 0 of the next hour. */
  lemma RollsOverAtTopOfHour(now: Clock)
    ensures NextQuarter(now) == WakeTime(1, 0, 0, 0) <==> now.minute >= 45
  {
  }
}
