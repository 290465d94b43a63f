/** Class `Insert`: a playfield insert lamp read from the lamp matrix. The matrix strobes a
    lit lamp, so a LOW reading shortly after a HIGH one still counts as lit; on top of that a
    four-state machine tells a steadily lit insert from a blinking one. The pin's level is a
    parameter (`true` is HIGH). */
module Inserts {
  import opened Platform

  /** `_state` codes, as `GetBlinkInsertState` returns them. */
  const OFF: byte := 0
  const ON: byte := 1
  const BLINKING: byte := 2
  const UNDEFINED: byte := 3

  /** One step of the insert's state machine. `lit` is the filtered reading; `sinceOn` and
      `sinceOff` are the times since the last HIGH and the last filtered-off reading. */
  function BlinkNext(state: byte, lit: bool, sinceOn: uint32, sinceOff: uint32,
                     onDelay: int16, offDelay: int16): (next: byte)
    requires state <= 3
    ensures next <= 3
  {
    if !lit then
      if state == OFF then OFF
      else if state == ON then OFF
      else if state == BLINKING then (if sinceOn > ToULong(offDelay) then OFF else BLINKING)
      else UNDEFINED
    else
      if state == OFF then UNDEFINED
      else if state == ON then ON
      else if state == BLINKING then (if sinceOff > ToULong(onDelay) then ON else BLINKING)
      else BLINKING
  }

  /** When the machine reports ON: a lit reading in ON, or in BLINKING once `onDelay` has passed
      since the lamp was last off. */
  lemma BlinkNextOn(state: byte, lit: bool, sinceOn: uint32, sinceOff: uint32, onDelay: int16, offDelay: int16)
    requires state <= 3
    ensures BlinkNext(state, lit, sinceOn, sinceOff, onDelay, offDelay) == ON <==>
              lit && (state == ON || (state == BLINKING && sinceOff > ToULong(onDelay)))
  {
  }

  /** When it reports OFF: an unlit reading in OFF or ON, or in BLINKING once `offDelay` has
      passed since the lamp was last on. */
  lemma BlinkNextOff(state: byte, lit: bool, sinceOn: uint32, sinceOff: uint32, onDelay: int16, offDelay: int16)
    requires state <= 3
    ensures BlinkNext(state, lit, sinceOn, sinceOff, onDelay, offDelay) == OFF <==>
              !lit && (state == OFF || state == ON || (state == BLINKING && sinceOn > ToULong(offDelay)))
  {
  }

  /** When it reports BLINKING: the next lit reading after UNDEFINED, or BLINKING while
      the delay that would end it has not passed. */
  lemma BlinkNextBlinking(state: byte, lit: bool, sinceOn: uint32, sinceOff: uint32, onDelay: int16, offDelay: int16)
    requires state <= 3
    ensures BlinkNext(state, lit, sinceOn, sinceOff, onDelay, offDelay) == BLINKING <==>
              (lit && state == UNDEFINED) ||
              (state == BLINKING && (if lit then sinceOff <= ToULong(onDelay) else sinceOn <= ToULong(offDelay)))
  {
  }

  /** When it reports UNDEFINED: the first rising edge (lit in OFF), kept until the next lit
      reading. */
  lemma BlinkNextUndefined(state: byte, lit: bool, sinceOn: uint32, sinceOff: uint32, onDelay: int16, offDelay: int16)
    requires state <= 3
    ensures BlinkNext(state, lit, sinceOn, sinceOff, onDelay, offDelay) == UNDEFINED <==>
              (lit && state == OFF) || (!lit && state == UNDEFINED)
  {
  }

  /** One poll of the insert, as `GetBlinkInsertState` sees it. */
  datatype Reading = Reading(lit: bool, sinceOn: uint32, sinceOff: uint32)

  /** The state after a sequence of polls. */
  function Run(state: byte, polls: seq<Reading>, onDelay: int16, offDelay: int16): (s: byte)
    requires state <= 3
    ensures s <= 3
    decreases |polls|
  {
    if |polls| == 0 then state
    else Run(BlinkNext(state, polls[0].lit, polls[0].sinceOn, polls[0].sinceOff, onDelay, offDelay),
             polls[1..], onDelay, offDelay)
  }

  /** How far the machine is from OFF on the way to ON: OFF, UNDEFINED, BLINKING, ON. */
  function Rank(state: byte): (r: nat)
    requires state <= 3
    ensures r <= 3
  {
    if state == OFF then 0 else if state == UNDEFINED then 1 else if state == BLINKING then 2 else 3
  }

  function CountLit(polls: seq<Reading>): nat {
    if |polls| == 0 then 0 else (if polls[0].lit then 1 else 0) + CountLit(polls[1..])
  }

  /** Each lit poll takes the machine at most one step towards ON, and an unlit poll never
      does: in particular from OFF the insert is reported ON only after three lit polls. */
  lemma {:induction false} RankRisesOnlyWhenLit(state: byte, polls: seq<Reading>, onDelay: int16, offDelay: int16)
    requires state <= 3
    ensures Rank(Run(state, polls, onDelay, offDelay)) <= Rank(state) + CountLit(polls)
    decreases |polls|
  {
    if |polls| > 0 {
      var next := BlinkNext(state, polls[0].lit, polls[0].sinceOn, polls[0].sinceOff, onDelay, offDelay);
      assert Rank(next) <= Rank(state) + (if polls[0].lit then 1 else 0);
      RankRisesOnlyWhenLit(next, polls[1..], onDelay, offDelay);
    }
  }

  class Insert {
    const filterDelay: int16
    const insertOnDelay: int16
    const insertOffDelay: int16
    var lastInsertOn: uint32
    var lastInsertOff: uint32
    var state: byte

    ghost predicate Valid()
      reads this
    {
      state <= 3
    }

    constructor (filterDelay: int16, insertOnDelay: int16 := 0, insertOffDelay: int16 := 0)
      ensures Valid()
      ensures this.filterDelay == filterDelay && this.insertOnDelay == insertOnDelay
      ensures this.insertOffDelay == insertOffDelay
      ensures lastInsertOn == 0 && lastInsertOff == 0 && state == OFF
    {
      this.filterDelay := filterDelay;
      this.insertOnDelay := insertOnDelay;
      this.insertOffDelay := insertOffDelay;
      lastInsertOn := 0;
      lastInsertOff := 0;
      state := OFF;
    }

    /** `InsertOn`: a HIGH reading is lit and records its time; a LOW reading still counts as
        lit until more than `filterDelay` ms have passed since the last HIGH, and only a reading
        filtered to off records its time as the last off. */
    method InsertOn(now: uint32, level: bool) returns (lit: bool)
      modifies this`lastInsertOn, this`lastInsertOff
      ensures lit <==> level || Elapsed(now, old(lastInsertOn)) <= ToULong(filterDelay)
      ensures lastInsertOn == if level then now else old(lastInsertOn)
      ensures lastInsertOff == if lit then old(lastInsertOff) else now
    {
      if level {
        lit := true;
        lastInsertOn := now;
      } else {
        if Elapsed(now, lastInsertOn) > ToULong(filterDelay) {
          lit := false;
          lastInsertOff := now;
        } else {
          lit := true;
        }
      }
    }

    /** `GetBlinkInsertState`: filters the reading with `InsertOn`, then takes one step of the
        state machine and returns the new state. */
    method GetBlinkInsertState(now: uint32, level: bool) returns (s: byte)
      requires Valid()
      modifies this`lastInsertOn, this`lastInsertOff, this`state
      ensures Valid() && s == state
      ensures var lit := level || Elapsed(now, old(lastInsertOn)) <= ToULong(filterDelay);
              lastInsertOn == (if level then now else old(lastInsertOn)) &&
              lastInsertOff == (if lit then old(lastInsertOff) else now)
      ensures var lit := level || Elapsed(now, old(lastInsertOn)) <= ToULong(filterDelay);
              state == BlinkNext(old(state), lit, Elapsed(now, old(lastInsertOn)), Elapsed(now, old(lastInsertOff)),
                                 insertOnDelay, insertOffDelay)
    {
      // In the unlit branch `InsertOn` has left `lastInsertOn` alone, and in the lit branch
      // `lastInsertOff`, so each test below sees the time from before the call.
      var lit := InsertOn(now, level);
      if !lit {
        if state == OFF {
          return state;
        }
        if state == ON {
          state := OFF;
          return state;
        }
        if state == BLINKING {
          if Elapsed(now, lastInsertOn) > ToULong(insertOffDelay) {
            state := OFF;
            return state;
          } else {
            return state;
          }
        }
        return state;
      } else {
        if state == OFF {
          state := UNDEFINED;
          return state;
        }
        if state == ON {
          return state;
        }
        if state == BLINKING {
          if Elapsed(now, lastInsertOff) > ToULong(insertOnDelay) {
            state := ON;
            return state;
          } else {
            return state;
          }
        }
        state := BLINKING;
        return state;
      }
    }
  }
}
