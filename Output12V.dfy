/** Class `Std12VOutput`: a 12 V device (lamp, motor, shaker) on one PWM pin. Every
    `analogWrite` is recorded in `written`; the pin itself is not modelled. */
module Output12V {
  import opened Platform

  /** What a call of `OutputWithDelay` leaves behind: the delay and start time it keeps, and
      `*OutputActive`. */
  datatype DelayState = DelayState(delayTime: int16, startTime: uint32, active: bool)

  /** `OutputWithDelay` as written: the test `_delaytime = 0` assigns 0 and is then false,
      so the delay is never latched and the elapsed time is measured from 0. */
  function DelayStepAsWritten(delayTime: int16, startTime: uint32, delaytime: int16, now: uint32): (s: DelayState)
  {
    var latchedDelay := 0;
    if Elapsed(now, startTime) > ToULong(latchedDelay) then DelayState(0, 0, false)
    else DelayState(latchedDelay, startTime, true)
  }

  /** `OutputWithDelay` as evidently intended (`_delaytime == 0`): an idle output latches the
      requested delay and the current time; once the delay has run out it goes idle again. */
  function DelayStep(delayTime: int16, startTime: uint32, delaytime: int16, now: uint32): (s: DelayState)
  {
    var (d, t) := if delayTime == 0 then (delaytime, now) else (delayTime, startTime);
    if Elapsed(now, t) > ToULong(d) then DelayState(0, 0, false) else DelayState(d, t, true)
  }

  /** As written, once the clock has left 0 the output is never on: the first call already
      reports the time as over. */
  lemma AsWrittenNeverActive(delayTime: int16, startTime: uint32, delaytime: int16, now: uint32)
    requires startTime == 0 && now > 0
    ensures DelayStepAsWritten(delayTime, startTime, delaytime, now) == DelayState(0, 0, false)
  {
  }

  /** An output asked for 1000 ms at time 500 is switched off at once as written, where the
      intended version keeps it on. */
  lemma AsWrittenCounterexample()
    ensures !DelayStepAsWritten(0, 0, 1000, 500).active
    ensures DelayStep(0, 0, 1000, 500) == DelayState(1000, 500, true)
  {
  }

  /** The intended version keeps the output on for exactly the requested time: started at
      `start` and polled while it stays on, it is on at every time up to `start + delaytime`
      and off after, with the latched delay and start kept meanwhile. */
  lemma IntendedHoldsForDelay(delaytime: int16, start: uint32, now: uint32)
    requires 0 < delaytime
    ensures DelayStep(0, 0, delaytime, start) == DelayState(delaytime, start, true)
    ensures DelayStep(delaytime, start, delaytime, now).active <==> Elapsed(now, start) <= delaytime
    ensures DelayStep(delaytime, start, delaytime, now).active ==>
              DelayStep(delaytime, start, delaytime, now) == DelayState(delaytime, start, true)
    ensures !DelayStep(delaytime, start, delaytime, now).active ==>
              DelayStep(delaytime, start, delaytime, now) == DelayState(0, 0, false)
  {
  }

  class Std12VOutput {
    var delayTime: int16
    var startTime: uint32
    /** The value last written to the pin. */
    var written: int

    /** As written, `OutputWithDelay` keeps the delay and the start time at 0. */
    ghost predicate Valid()
      reads this
    {
      delayTime == 0 && startTime == 0
    }

    /** The constructor clears the delay and switches the output off. */
    constructor ()
      ensures Valid() && written == 0
    {
      delayTime := 0;
      startTime := 0;
      written := 0;
      new;
      Output(0);
    }

    /** `Output`: the value is clamped to a PWM duty. */
    method Output(val: int16)
      modifies this`written
      ensures written == Constrain(val, 0, 255)
      ensures 0 <= written <= 255
    {
      var v := Constrain(val, 0, 255);
      written := v;
    }

    /** `OutputWithDelay`, as written (`DelayStep` is the intended version): `active` is the
        new `*OutputActive`. Since the start time stays 0, the output is on only at time 0. */
    method OutputWithDelay(val: int16, delaytime: int16, now: uint32) returns (active: bool)
      requires Valid()
      modifies this`delayTime, this`startTime, this`written
      ensures Valid()
      ensures DelayState(delayTime, startTime, active) == DelayStepAsWritten(old(delayTime), old(startTime), delaytime, now)
      ensures active <==> now == 0
      ensures written == if active then Constrain(val, 0, 255) else 0
    {
      var v := Constrain(val, 0, 255);
      // `if (_delaytime = 0)` stores 0 and then tests the stored 0: the branch that would
      // latch `delaytime` and `now` is never taken.
      delayTime := 0;
      if Elapsed(now, startTime) > ToULong(delayTime) {
        Output(0);
        delayTime := 0;
        startTime := 0;
        active := false;
      } else {
        Output(v);
        active := true;
      }
    }
  }
}
