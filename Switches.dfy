/** Classes `Switch` and `OptoSwitch`: a playfield switch, read directly or debounced so that
    only a closure that lasts longer than `switchWait` ms is reported (a ball resting in the
    trough, not one rolling through). The pin's level is a parameter (`true` is HIGH). */
module Switches {
  import opened Platform

  /** One debounced read with a 32-bit latch, as the code evidently intends: the new latch
      time and the result. `active` is the switch's
      "ball present" level, `closeTime` 0 means no closure is latched. A closure is latched
      at the first active read and reported once more than `wait` ms have passed since; a
      report or an inactive read clears the latch. */
  function DebounceStep(closeTime: uint32, active: bool, now: uint32, wait: int16): (r: (uint32, bool))
    ensures r.1 <==> active && Elapsed(now, if closeTime == 0 then now else closeTime) > ToULong(wait)
    ensures r.1 || !active ==> r.0 == 0
    ensures active && !r.1 ==> r.0 == if closeTime == 0 then now else closeTime
  {
    if active then
      var latch := if closeTime == 0 then now else closeTime;
      if Elapsed(now, latch) > ToULong(wait) then (0, true) else (latch, false)
    else
      (0, false)
  }

  /** `ReadSwitchDelayed` as written, where `_closetime` is a 16-bit `int`: the time is
      truncated when it is stored and sign-extended when it is subtracted. A read reports the
      closure exactly when the switch is active and more than `wait` ms have passed since the
      truncated latch; a report or an inactive read clears the latch. */
  function DebounceStepAsWritten(closeTime: int16, active: bool, now: uint32, wait: int16): (r: (int16, bool))
    ensures r.1 <==> active && Elapsed(now, ToULong(if closeTime == 0 then ToInt16(now) else closeTime)) > ToULong(wait)
    ensures r.1 || !active ==> r.0 == 0
    ensures active && !r.1 ==> r.0 == if closeTime == 0 then ToInt16(now) else closeTime
  {
    if active then
      var latch := if closeTime == 0 then ToInt16(now) else closeTime;
      if Elapsed(now, ToULong(latch)) > ToULong(wait) then (0, true) else (latch, false)
    else
      (0, false)
  }

  /** Until the clock passes 32.767 s the truncation is invisible: with a latch and a time
      that both fit in 16 bits, the code as written and the 32-bit latch agree. */
  lemma AsWrittenAgreesEarly(closeTime: int16, active: bool, now: uint32, wait: int16)
    requires 0 <= closeTime && now <= INT16_MAX
    ensures DebounceStepAsWritten(closeTime, active, now, wait).0 as int == DebounceStep(closeTime, active, now, wait).0 as int
    ensures DebounceStepAsWritten(closeTime, active, now, wait).1 == DebounceStep(closeTime, active, now, wait).1
  {
  }

  /** At 40 s a freshly closed switch is reported at once as written, where a 32-bit latch
      makes it wait. */
  lemma TruncatedLatchCounterexample()
    ensures DebounceStepAsWritten(0, true, 40000, 100) == (0, true)
    ensures DebounceStep(0, true, 40000, 100) == (40000, false)
  {
  }

  /** As written, from 32.768 s after reset on (until the counter nears its overflow), the
      first read of a closure already reports it, whatever the wait. */
  lemma TruncatedLatchReportsAtOnce(now: uint32, wait: int16)
    requires 0x8000 <= now < ULONG_RANGE - 0x8000 && wait >= 0
    ensures DebounceStepAsWritten(0, true, now, wait).1
  {
    var low := now % 0x1_0000;
    var latch := ToInt16(now);
    if low <= INT16_MAX {
      assert latch == low;
      assert Elapsed(now, ToULong(latch)) == now - low;
      assert now - low >= 0x1_0000;
    } else {
      assert latch == low - 0x1_0000;
      assert ToULong(latch) == low - 0x1_0000 + ULONG_RANGE;
      assert Elapsed(now, ToULong(latch)) == now - low + 0x1_0000;
    }
  }

  /** With the 32-bit latch, a closure is reported only after the wait: while the switch stays
      closed and every read falls within `wait` ms of the closing, no read reports it and the
      latch keeps the closing time. */
  lemma {:induction false} ShortClosureNeverReports(closeTime: uint32, times: seq<uint32>, wait: int16)
    requires closeTime != 0
    requires forall k :: 0 <= k < |times| ==> Elapsed(times[k], closeTime) <= ToULong(wait)
    ensures DebounceRun(closeTime, times, wait) == (closeTime, false)
  {
    if |times| > 0 {
      assert DebounceStep(closeTime, true, times[0], wait) == (closeTime, false);
      ShortClosureNeverReports(closeTime, times[1..], wait);
    }
  }

  /** Reads of a switch held active at the times `times`: the final latch and whether any
      read reported the closure. */
  function DebounceRun(closeTime: uint32, times: seq<uint32>, wait: int16): (r: (uint32, bool))
    decreases |times|
  {
    if |times| == 0 then (closeTime, false)
    else
      var (c, reported) := DebounceStep(closeTime, true, times[0], wait);
      if reported then (c, true) else DebounceRun(c, times[1..], wait)
  }

  /** A report re-arms the switch: the next active read latches a new closure, so a ball that
      stays put is reported again after each further wait. */
  lemma ReportRearms(closeTime: uint32, now: uint32, later: uint32, wait: int16)
    requires DebounceStep(closeTime, true, now, wait).1 && later != 0 && wait >= 0
    ensures DebounceStep(DebounceStep(closeTime, true, now, wait).0, true, later, wait) == (later, false)
  {
  }

  class Switch {
    const switchWait: int16
    var closeTime: int16

    constructor (switchwait: int16 := 0)
      ensures switchWait == switchwait && closeTime == 0
    {
      switchWait := switchwait;
      closeTime := 0;
    }

    /** `ReadSwitch`: a closed switch reads HIGH. */
    method ReadSwitch(level: bool) returns (closed: bool)
      ensures closed == level
    {
      closed := level;
    }

    /** `ReadSwitchDelayed`: debounced on the HIGH level, with the 16-bit latch of the code. */
    method ReadSwitchDelayed(now: uint32, level: bool) returns (closed: bool)
      modifies this`closeTime
      ensures (closeTime, closed) == DebounceStepAsWritten(old(closeTime), level, now, switchWait)
    {
      if level {
        if closeTime == 0 {
          closeTime := ToInt16(now);
        }
        if Elapsed(now, ToULong(closeTime)) > ToULong(switchWait) {
          closeTime := 0;
          closed := true;
        } else {
          closed := false;
        }
      } else {
        closeTime := 0;
        closed := false;
      }
    }
  }

  /** An opto switch is interrupted by the ball: it reads LOW when a ball is present. */
  class OptoSwitch {
    const switchWait: int16
    var closeTime: int16

    constructor (switchwait: int16 := 0)
      ensures switchWait == switchwait && closeTime == 0
    {
      switchWait := switchwait;
      closeTime := 0;
    }

    /** `ReadSwitch`: true when the beam is interrupted (the pin reads LOW). */
    method ReadSwitch(level: bool) returns (present: bool)
      ensures present == !level
    {
      present := !level;
    }

    /** `ReadSwitchDelayed`: debounced on the LOW level, with the 16-bit latch of the code. */
    method ReadSwitchDelayed(now: uint32, level: bool) returns (present: bool)
      modifies this`closeTime
      ensures (closeTime, present) == DebounceStepAsWritten(old(closeTime), !level, now, switchWait)
    {
      if !level {
        if closeTime == 0 {
          closeTime := ToInt16(now);
        }
        if Elapsed(now, ToULong(closeTime)) > ToULong(switchWait) {
          closeTime := 0;
          present := true;
        } else {
          present := false;
        }
      } else {
        closeTime := 0;
        present := false;
      }
    }
  }
}
