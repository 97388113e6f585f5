/** Timers and the clock: what `Timer` and `Timestamp` compute (Timer.h, Timer.cc, Timestamp.h). */
module Timers {

  const MICROSECONDS_PER_SECOND: int := 1000 * 1000
  const INVALID_TIME: int := 0

  /** C++ converts a double to an integer by truncating toward zero. */
  function Truncate(x: real): (t: int)
    ensures 0.0 <= x ==> t as real <= x < t as real + 1.0
    ensures x < 0.0 ==> t as real - 1.0 < x <= t as real
  {
    if x >= 0.0 then x.Floor else -((-x).Floor)
  }

  /** The clock ticks that an interval given in seconds is worth: its whole microseconds. */
  function Ticks(seconds: real): (t: int)
    ensures 0.0 <= seconds ==> 0 <= t && t as real <= seconds * 1_000_000.0 < t as real + 1.0
    ensures seconds < 0.0 ==> t <= 0 && t as real - 1.0 < seconds * 1_000_000.0 <= t as real
  {
    Truncate(seconds * MICROSECONDS_PER_SECOND as real)
  }

  /** `addTime`. */
  function AddTime(time: int, seconds: real): (t: int)
    ensures 0.0 <= seconds ==> time <= t && (t - time) as real <= seconds * 1_000_000.0 < (t - time) as real + 1.0
  {
    time + Ticks(seconds)
  }

  datatype Timer = Timer(expiration: int, interval: real, repeat: bool, sequence: int) {

    /** `Timer::restart`: only a repeating timer gets a meaningful expiration again. */
    function Restart(now: int): Timer {
      this.(expiration := if repeat then AddTime(now, interval) else INVALID_TIME)
    }
  }

  function NewTimer(when: int, interval: real, sequence: int): Timer {
    Timer(when, interval, interval > 0.0, sequence)
  }

  datatype Timespec = Timespec(sec: int, nsec: int)

  /**
    `howMuchTimeFromNow`: the relative setting handed to timerfd_settime. It is normalised and
    never zero (a zero setting would disarm the timer), stands for a whole number of microseconds,
    and never asks for less than 100 of them.
   */
  function HowMuchTimeFromNow(when: int, now: int): (ts: Timespec)
    ensures 0 <= ts.sec && 0 <= ts.nsec < 1_000_000_000
    ensures ts != Timespec(0, 0)
    ensures ts.sec * 1_000_000_000 + ts.nsec == 1000 * (if when - now < 100 then 100 else when - now)
  {
    var microseconds := if when - now < 100 then 100 else when - now;
    Timespec(microseconds / MICROSECONDS_PER_SECOND, (microseconds % MICROSECONDS_PER_SECOND) * 1000)
  }
}
