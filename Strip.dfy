/** Class `RGBStrip`: an RGB LED strip on three PWM pins, with a brightness scale and four
    poll-driven effects. Every `analogWrite` is recorded in `written`; the pins themselves and
    their configuration are not modelled. */
module Strip {
  import opened Platform
  import opened Colors
  import opened StripEffects

  class RGBStrip {
    var brightness: int
    // RainbowColorChange
    var rainbowBlue: int
    var rainbowRed: int
    var rainbowGreen: int
    var fadeSpeedRainbow: int
    var startRainbow: uint32
    // MultiColorFlash
    var nrOfColors: byte
    const colors: array<bv32>
    const durations: array<int16>
    var randSequence: bool
    var multiFlashDuration: int16
    var multiFlashStartTime: uint32
    var lastMultiColorSwitch: uint32
    var activeColorIndex: byte
    // TwoColorFlash
    var col1Duration: int16
    const color1: array<int>
    var col2Duration: int16
    const color2: array<int>
    var flashDuration: int16
    var flashStartTime: uint32
    var lastColorSwitch: uint32
    var color1Active: bool
    // TwoColorFade
    const fadeStep: array<int>
    const fadeDir: array<int>
    const fadeColor: array<int>
    const fadeColorFrom: array<int>
    const fadeColorTo: array<int>
    var fadeSpeed: int16
    var fadeDuration: int16
    var lastFadeStep: uint32
    var fadeStartTime: uint32

    /** The values last written to the red, green and blue pins. */
    var written: Rgb

    /** The member arrays have their declared sizes and are distinct objects. */
    ghost predicate Shape()
      reads this
    {
      colors.Length == 5 && durations.Length == 5 && colors as object != durations as object &&
      color1.Length == 3 && color2.Length == 3 &&
      fadeStep.Length == 3 && fadeDir.Length == 3 && fadeColor.Length == 3 &&
      fadeColorFrom.Length == 3 && fadeColorTo.Length == 3 &&
      color1 != color2 && color1 != fadeStep && color1 != fadeDir && color1 != fadeColor &&
      color1 != fadeColorFrom && color1 != fadeColorTo &&
      color2 != fadeStep && color2 != fadeDir && color2 != fadeColor &&
      color2 != fadeColorFrom && color2 != fadeColorTo &&
      fadeStep != fadeDir && fadeStep != fadeColor && fadeStep != fadeColorFrom && fadeStep != fadeColorTo &&
      fadeDir != fadeColor && fadeDir != fadeColorFrom && fadeDir != fadeColorTo &&
      fadeColor != fadeColorFrom && fadeColor != fadeColorTo &&
      fadeColorFrom != fadeColorTo
    }

    /** The object invariant: brightness is a percentage, the rainbow speed is positive and
        its channels are PWM values, the playlist index names a configured colour, and the
        fade accumulators lie between the two fade colours. */
    ghost predicate Valid()
      reads this, fadeStep, fadeDir, fadeColor, fadeColorFrom, fadeColorTo
    {
      Shape() &&
      0 <= brightness <= 100 &&
      fadeSpeedRainbow >= 1 &&
      IsChannel(rainbowRed) && IsChannel(rainbowGreen) && IsChannel(rainbowBlue) &&
      nrOfColors <= 5 && activeColorIndex < Max(nrOfColors, 1) &&
      IsColor(fadeColorFrom[..]) && IsColor(fadeColorTo[..]) &&
      FadeInv(fadeColor[..], fadeDir[..], fadeColorFrom[..], fadeColorTo[..], fadeStep[..])
    }

    /** The constructor keeps `brightness` within [0, 100] and switches the strip off.
        Members the source leaves uninitialised start at zero. */
    constructor (brightness: int16 := 100)
      ensures Valid()
      ensures this.brightness == Constrain(brightness, 0, 100)
      ensures rainbowRed == 0 && rainbowGreen == 0 && rainbowBlue == 0
      ensures startRainbow == 0 && fadeSpeedRainbow == 7
      ensures written == Rgb(0, 0, 0)
      ensures fresh(colors) && fresh(durations) && fresh(color1) && fresh(color2)
      ensures fresh(fadeStep) && fresh(fadeDir) && fresh(fadeColor) && fresh(fadeColorFrom) && fresh(fadeColorTo)
    {
      this.brightness := Constrain(brightness, 0, 100);
      rainbowRed, rainbowBlue, rainbowGreen := 0, 0, 0;
      startRainbow := 0;
      fadeSpeedRainbow := 7;
      nrOfColors, randSequence, multiFlashDuration := 0, false, 0;
      multiFlashStartTime, lastMultiColorSwitch, activeColorIndex := 0, 0, 0;
      colors := new bv32[5](_ => 0);
      durations := new int16[5](_ => 0);
      col1Duration, col2Duration, flashDuration := 0, 0, 0;
      flashStartTime, lastColorSwitch, color1Active := 0, 0, false;
      color1 := new int[3](_ => 0);
      color2 := new int[3](_ => 0);
      fadeStep := new int[3](_ => 0);
      fadeDir := new int[3](_ => 0);
      fadeColor := new int[3](_ => 0);
      fadeColorFrom := new int[3](_ => 0);
      fadeColorTo := new int[3](_ => 0);
      fadeSpeed, fadeDuration, lastFadeStep, fadeStartTime := 0, 0, 0, 0;
      written := Rgb(0, 0, 0);
      new;
      SwitchOff();
    }

    // -------------------------------------------------------------------------------------
    // Output

    /** `LightStrip(unsigned long)`: writes each channel of the packed colour, scaled by the
        brightness; the values are PWM duties. */
    method LightStrip(color: bv32)
      requires Valid()
      modifies this`written
      ensures Valid()
      ensures written == Dimmed(Widen(GetRed(color)), Widen(GetGreen(color)), Widen(GetBlue(color)), brightness)
      ensures IsChannel(written.red) && IsChannel(written.green) && IsChannel(written.blue)
    {
      var red, green, blue := Widen(GetRed(color)), Widen(GetGreen(color)), Widen(GetBlue(color));
      written := Rgb(Scale(red, brightness), Scale(green, brightness), Scale(blue, brightness));
    }

    /** `LightStrip(int, int, int)`. */
    method LightStripRGB(redVal: int, greenVal: int, blueVal: int)
      requires Valid()
      modifies this`written
      ensures Valid()
      ensures written == Dimmed(redVal, greenVal, blueVal, brightness)
    {
      written := Rgb(Scale(redVal, brightness), Scale(greenVal, brightness), Scale(blueVal, brightness));
    }

    /** `LightStrip(int color[3])`. */
    method LightStripArray(color: array<int>)
      requires Valid() && color.Length >= 3
      modifies this`written
      ensures Valid()
      ensures written == Dimmed(color[0], color[1], color[2], brightness)
    {
      written := Rgb(Scale(color[0], brightness), Scale(color[1], brightness), Scale(color[2], brightness));
    }

    /** `SwitchOff`: writes black. */
    method SwitchOff()
      requires Valid()
      modifies this`written
      ensures Valid()
      ensures written == Rgb(0, 0, 0)
    {
      LightStrip(0);
    }

    /** `SetBrightness`: keeps a value within [0, 100] and otherwise falls back to full
        brightness (where the constructor clamps instead). */
    method SetBrightness(newBrightness: int16)
      requires Valid()
      modifies this`brightness
      ensures Valid()
      ensures 0 <= newBrightness <= 100 ==> brightness == newBrightness
      ensures !(0 <= newBrightness <= 100) ==> brightness == 100
    {
      if newBrightness >= 0 && newBrightness <= 100 {
        brightness := newBrightness;
      } else {
        brightness := 100;
      }
    }

    // -------------------------------------------------------------------------------------
    // RainbowColorChange

    /** `RainbowColorChange`: a full cycle lasts `fadeSpeedRainbow * 6 * 256` ms; when it
        is over only the cycle start is reset, otherwise the channels follow `RainbowRamp`.
        The period is computed in 16-bit `int`, so the speed must keep it within range. */
    method RainbowColorChange(now: uint32)
      requires Valid() && fadeSpeedRainbow * 6 * 256 <= INT16_MAX
      modifies this`startRainbow, this`rainbowRed, this`rainbowGreen, this`rainbowBlue, this`written
      ensures Valid()
      ensures var t := Elapsed(now, old(startRainbow));
              var before := old(Rgb(rainbowRed, rainbowGreen, rainbowBlue));
              if t >= fadeSpeedRainbow * 6 * 256 then
                startRainbow == now && Rgb(rainbowRed, rainbowGreen, rainbowBlue) == before
              else
                startRainbow == old(startRainbow) &&
                Rgb(rainbowRed, rainbowGreen, rainbowBlue) == RainbowRamp(before, t, fadeSpeedRainbow)
      ensures written == Dimmed(rainbowRed, rainbowGreen, rainbowBlue, brightness)
    {
      var speed := fadeSpeedRainbow;
      if Elapsed(now, startRainbow) >= speed * 6 * 256 {
        startRainbow := now;
      } else {
        ghost var before := Rgb(rainbowRed, rainbowGreen, rainbowBlue);
        // `int TimeExpired = CurrentMillis - _startrainbow`: fits, being below the period
        var timeExpired: int16 := ToInt16(Elapsed(now, startRainbow));
        RainbowKeepsChannels(before, timeExpired, speed);
        if timeExpired < speed * 1 * 256 {
          rainbowRed := timeExpired / speed;
        } else if timeExpired < speed * 2 * 256 {
          rainbowBlue := 255 - (timeExpired - speed * 1 * 256) / speed;
        } else if timeExpired < speed * 3 * 256 {
          rainbowGreen := (timeExpired - speed * 2 * 256) / speed;
        } else if timeExpired < speed * 4 * 256 {
          rainbowRed := 255 - (timeExpired - speed * 3 * 256) / speed;
        } else if timeExpired < speed * 5 * 256 {
          rainbowBlue := (timeExpired - speed * 4 * 256) / speed;
        } else {
          rainbowGreen := 255 - (timeExpired - speed * 5 * 256) / speed;
        }
      }
      LightStripRGB(rainbowRed, rainbowGreen, rainbowBlue);
    }

    /** `SetRainbowSpeed`: a speed that is not positive becomes 1. */
    method SetRainbowSpeed(rainbowSpeed: int16)
      requires Valid()
      modifies this`fadeSpeedRainbow
      ensures Valid()
      ensures fadeSpeedRainbow >= 1
      ensures fadeSpeedRainbow == if rainbowSpeed <= 0 then 1 else rainbowSpeed
    {
      fadeSpeedRainbow := rainbowSpeed;
      if fadeSpeedRainbow <= 0 {
        fadeSpeedRainbow := 1;
      }
    }

    // -------------------------------------------------------------------------------------
    // MultiColorFlash

    /** `SetupMultiColorFlash`: at most five colours; the playlist restarts at its first
        colour. The caller's arrays are read only, so they are passed by value; they must hold five
        entries, as `memcpy` copies five. */
    method SetupMultiColorFlash(nrofcolors: byte, colors: seq<bv32>, durations: seq<int16>,
                                randsequence: bool, multiFlashDur: int16)
      requires Valid() && |colors| >= 5 && |durations| >= 5
      modifies this`nrOfColors, this`randSequence, this`activeColorIndex, this`multiFlashDuration,
               this`multiFlashStartTime, this.colors, this.durations
      ensures Valid()
      ensures nrOfColors == if nrofcolors > 5 then 5 else nrofcolors
      ensures this.colors[..] == colors[..5] && this.durations[..] == durations[..5]
      ensures randSequence == randsequence && activeColorIndex == 0
      ensures multiFlashDuration == multiFlashDur && multiFlashStartTime == 0
    {
      if nrofcolors > 5 {
        nrOfColors := 5;
      } else {
        nrOfColors := nrofcolors;
      }
      forall i | 0 <= i < 5 {
        this.colors[i] := colors[i];
      }
      forall i | 0 <= i < 5 {
        this.durations[i] := durations[i];
      }
      randSequence := randsequence;
      activeColorIndex := 0;
      multiFlashDuration := multiFlashDur;
      multiFlashStartTime := 0;
    }

    /** `MultiColorFlash`. `flashActive` is `*FlashActive` on entry, `active` its value on
        exit, and `draw` the generator value behind `random(0, nrOfColors - 1)`.
        Starting latches the start and switch times; a running flash that has outlived its
        duration stops without writing; otherwise the playlist advances once the current
        colour has been shown for its duration, and the current colour is written. */
    method MultiColorFlash(now: uint32, flashActive: bool, draw: nat) returns (active: bool)
      requires Valid()
      modifies this`multiFlashStartTime, this`lastMultiColorSwitch, this`activeColorIndex, this`written
      ensures Valid()
      ensures Expires(flashActive, now, old(multiFlashStartTime), multiFlashDuration) ==>
                !active && multiFlashStartTime == old(multiFlashStartTime) &&
                lastMultiColorSwitch == old(lastMultiColorSwitch) &&
                activeColorIndex == old(activeColorIndex) && written == old(written)
      ensures !Expires(flashActive, now, old(multiFlashStartTime), multiFlashDuration) ==>
                active &&
                multiFlashStartTime == (if flashActive then old(multiFlashStartTime) else now) &&
                var last := if flashActive then old(lastMultiColorSwitch) else now;
                var due := Due(now, last, durations[old(activeColorIndex)]);
                lastMultiColorSwitch == (if due then now else last) &&
                activeColorIndex == (if due then NextColorIndex(old(activeColorIndex), nrOfColors, randSequence, draw)
                                     else old(activeColorIndex)) &&
                written == Dimmed(Widen(GetRed(colors[activeColorIndex])), Widen(GetGreen(colors[activeColorIndex])),
                                  Widen(GetBlue(colors[activeColorIndex])), brightness)
    {
      active := flashActive;
      if !flashActive {
        multiFlashStartTime := now;
        lastMultiColorSwitch := now;
        active := true;
      } else if Elapsed(now, multiFlashStartTime) > ToULong(multiFlashDuration) {
        active := false;
        return;
      }
      if Elapsed(now, lastMultiColorSwitch) >= ToULong(durations[activeColorIndex]) {
        lastMultiColorSwitch := now;
        if randSequence {
          activeColorIndex := Random(0, nrOfColors - 1, draw);
        } else {
          activeColorIndex := activeColorIndex + 1;
          if activeColorIndex > nrOfColors - 1 {
            activeColorIndex := 0;
          }
        }
      }
      LightStrip(colors[activeColorIndex]);
    }

    // -------------------------------------------------------------------------------------
    // TwoColorFlash

    /** `SetupTwoColorFlash`: copies both colours; the flash starts on the first colour.
        (The strip's own buffers are private, so a caller cannot pass one of them.) */
    method SetupTwoColorFlash(c1: array<int>, c2: array<int>, c1Duration: int16, c2Duration: int16,
                              twoFlashDur: int16)
      requires Valid() && c1.Length >= 3 && c2.Length >= 3 && c2 != color1
      modifies this`col1Duration, this`col2Duration, this`flashDuration, this`color1Active,
               this`flashStartTime, color1, color2
      ensures Valid()
      ensures color1[..] == old(c1[..3]) && color2[..] == old(c2[..3])
      ensures col1Duration == c1Duration && col2Duration == c2Duration && flashDuration == twoFlashDur
      ensures color1Active && flashStartTime == 0
    {
      CopyColor(color1, c1);
      CopyColor(color2, c2);
      col1Duration := c1Duration;
      col2Duration := c2Duration;
      flashDuration := twoFlashDur;
      color1Active := true;
      flashStartTime := 0;
    }

    /** `TwoColorFlash`: the same lifetime as `MultiColorFlash`; the shown colour toggles
        exactly when it has been shown for its own duration. */
    method TwoColorFlash(now: uint32, flashActive: bool) returns (active: bool)
      requires Valid()
      modifies this`flashStartTime, this`lastColorSwitch, this`color1Active, this`written
      ensures Valid()
      ensures Expires(flashActive, now, old(flashStartTime), flashDuration) ==>
                !active && flashStartTime == old(flashStartTime) && lastColorSwitch == old(lastColorSwitch) &&
                color1Active == old(color1Active) && written == old(written)
      ensures !Expires(flashActive, now, old(flashStartTime), flashDuration) ==>
                active &&
                flashStartTime == (if flashActive then old(flashStartTime) else now) &&
                var last := if flashActive then old(lastColorSwitch) else now;
                var due := Due(now, last, if old(color1Active) then col1Duration else col2Duration);
                lastColorSwitch == (if due then now else last) &&
                color1Active == (old(color1Active) != due) &&
                written == (if color1Active then Dimmed(color1[0], color1[1], color1[2], brightness)
                            else Dimmed(color2[0], color2[1], color2[2], brightness))
    {
      active := flashActive;
      if !flashActive {
        flashStartTime := now;
        lastColorSwitch := now;
        active := true;
      } else if Elapsed(now, flashStartTime) > ToULong(flashDuration) {
        active := false;
        return;
      }
      if color1Active {
        if Elapsed(now, lastColorSwitch) >= ToULong(col1Duration) {
          lastColorSwitch := now;
          color1Active := false;
        }
      } else {
        if Elapsed(now, lastColorSwitch) >= ToULong(col2Duration) {
          lastColorSwitch := now;
          color1Active := true;
        }
      }
      if color1Active {
        LightStripArray(color1);
      } else {
        LightStripArray(color2);
      }
    }

    // -------------------------------------------------------------------------------------
    // TwoColorFade

    /** `SetupTwoColorFade`: unpacks both colours, clamps the step to [1, 5], sets each
        direction to +1 exactly when the channel rises, gives the lead channel the full step
        and the others proportional ones, and starts every accumulator on the `from` colour. */
    method SetupTwoColorFade(fadeColorFromLong: bv32, fadeColorToLong: bv32, fadestep: int16,
                             fadespeed: int16, fadeDur: int16)
      requires Valid() && FadeSetupDefined(fadeColorFromLong, fadeColorToLong, fadestep)
      modifies this`fadeSpeed, this`fadeDuration, fadeColorFrom, fadeColorTo, fadeDir, fadeStep, fadeColor
      ensures fadeColorFrom[..] == ChannelSeq(fadeColorFromLong) && fadeColorTo[..] == ChannelSeq(fadeColorToLong)
      ensures fadeSpeed == fadespeed && fadeDuration == fadeDur
      ensures fadeDir[..] == Directions(ChannelSeq(fadeColorFromLong), ChannelSeq(fadeColorToLong))
      ensures fadeStep[..] == ProportionalSteps(ColorDiffs(ChannelSeq(fadeColorFromLong), ChannelSeq(fadeColorToLong)),
                                                Constrain(fadestep, 1, 5))
      ensures fadeColor[..] == Starts(ChannelSeq(fadeColorFromLong))
      ensures Valid()
    {
      fadeSpeed := fadespeed;
      fadeDuration := fadeDur;
      PrepareFade(fadeColorFromLong, fadeColorToLong, fadestep, fadeColorFrom, fadeColorTo, fadeDir, fadeStep, fadeColor);
      SetupEstablishesFadeInv(fadeColorFrom[..], fadeColorTo[..], fadeStep[..]);
    }

    /** `SwitchDir`: every channel goes to the endpoint it was travelling towards and turns
        round. */
    method SwitchDir()
      requires Shape()
      modifies fadeColor, fadeDir
      ensures fadeColor[..] == Snapped(old(fadeDir[..]), fadeColorFrom[..], fadeColorTo[..])
      ensures fadeDir[..] == Negated(old(fadeDir[..]))
    {
      for i := 0 to 3
        invariant forall k :: 0 <= k < i ==>
                    fadeColor[k] == Endpoint(fadeColorFrom[k], fadeColorTo[k], old(fadeDir[k])) &&
                    fadeDir[k] == -old(fadeDir[k])
        invariant forall k :: i <= k < 3 ==> fadeDir[k] == old(fadeDir[k])
      {
        if fadeDir[i] == 1 {
          fadeColor[i] := Max(fadeColorFrom[i], fadeColorTo[i]) * 100;
        } else {
          fadeColor[i] := Min(fadeColorFrom[i], fadeColorTo[i]) * 100;
        }
        fadeDir[i] := -fadeDir[i];
      }
    }

    /** `TwoColorFade`: the same lifetime as the flashes; once `fadeSpeed` ms have passed
        since the last step it takes one `FadeTick`, and it writes the accumulators divided
        by 100, which are PWM values. */
    method TwoColorFade(now: uint32, fadeActive: bool) returns (active: bool)
      requires Valid()
      modifies this`fadeStartTime, this`lastFadeStep, this`written, fadeColor, fadeDir
      ensures Valid()
      ensures Expires(fadeActive, now, old(fadeStartTime), fadeDuration) ==>
                !active && fadeStartTime == old(fadeStartTime) && lastFadeStep == old(lastFadeStep) &&
                fadeColor[..] == old(fadeColor[..]) && fadeDir[..] == old(fadeDir[..]) && written == old(written)
      ensures !Expires(fadeActive, now, old(fadeStartTime), fadeDuration) ==>
                active &&
                fadeStartTime == (if fadeActive then old(fadeStartTime) else now) &&
                var last := if fadeActive then old(lastFadeStep) else now;
                (if Due(now, last, fadeSpeed) then
                   lastFadeStep == now &&
                   Fade(fadeColor[..], fadeDir[..]) ==
                     FadeTick(old(fadeColor[..]), old(fadeDir[..]), fadeColorFrom[..], fadeColorTo[..], fadeStep[..])
                 else
                   lastFadeStep == last && fadeColor[..] == old(fadeColor[..]) && fadeDir[..] == old(fadeDir[..])) &&
                written == Dimmed(CDiv(fadeColor[0], 100), CDiv(fadeColor[1], 100), CDiv(fadeColor[2], 100), brightness) &&
                IsChannel(written.red) && IsChannel(written.green) && IsChannel(written.blue)
    {
      active := fadeActive;
      if !fadeActive {
        fadeStartTime := now;
        lastFadeStep := now;
        active := true;
      } else if Elapsed(now, fadeStartTime) > ToULong(fadeDuration) {
        active := false;
        return;
      }
      if Elapsed(now, lastFadeStep) >= ToULong(fadeSpeed) {
        lastFadeStep := now;
        FadeOneStep();
      }
      ShowFade();
    }

    /** The step of `TwoColorFade`: advance the accumulators, and on overshoot `SwitchDir`. */
    method FadeOneStep()
      requires Valid()
      modifies fadeColor, fadeDir
      ensures Valid()
      ensures Fade(fadeColor[..], fadeDir[..]) ==
                FadeTick(old(fadeColor[..]), old(fadeDir[..]), fadeColorFrom[..], fadeColorTo[..], fadeStep[..])
    {
      ghost var color0, dir0 := fadeColor[..], fadeDir[..];
      AdvanceAccumulators(fadeColor, fadeDir, fadeStep);
      if DetectColorLimit(fadeColor[0], fadeColorFrom[0] * 100, fadeColorTo[0] * 100, fadeDir[0]) ||
         DetectColorLimit(fadeColor[1], fadeColorFrom[1] * 100, fadeColorTo[1] * 100, fadeDir[1]) ||
         DetectColorLimit(fadeColor[2], fadeColorFrom[2] * 100, fadeColorTo[2] * 100, fadeDir[2]) {
        SwitchDir();
      }
      FadeTickKeepsRange(color0, dir0, fadeColorFrom[..], fadeColorTo[..], fadeStep[..]);
    }

    /** The output of `TwoColorFade`: the accumulators divided by 100, which are PWM values. */
    method ShowFade()
      requires Valid()
      modifies this`written
      ensures Valid()
      ensures written == Dimmed(CDiv(fadeColor[0], 100), CDiv(fadeColor[1], 100), CDiv(fadeColor[2], 100), brightness)
      ensures IsChannel(written.red) && IsChannel(written.green) && IsChannel(written.blue)
    {
      ChannelOfAccumulator(fadeColor[0], fadeColorFrom[0], fadeColorTo[0]);
      ChannelOfAccumulator(fadeColor[1], fadeColorFrom[1], fadeColorTo[1]);
      ChannelOfAccumulator(fadeColor[2], fadeColorFrom[2], fadeColorTo[2]);
      LightStripRGB(CDiv(fadeColor[0], 100), CDiv(fadeColor[1], 100), CDiv(fadeColor[2], 100));
    }
  }

  /** The array work of `SetupTwoColorFade`, on the strip's five fade arrays. */
  method PrepareFade(fromLong: bv32, toLong: bv32, fadestep: int16,
                     from: array<int>, to: array<int>, dir: array<int>, step: array<int>, color: array<int>)
    requires from.Length == 3 && to.Length == 3 && dir.Length == 3 && step.Length == 3 && color.Length == 3
    requires from != to && from != dir && from != step && from != color && to != dir && to != step && to != color
    requires dir != step && dir != color && step != color
    requires FadeSetupDefined(fromLong, toLong, fadestep)
    modifies from, to, dir, step, color
    ensures from[..] == ChannelSeq(fromLong) && to[..] == ChannelSeq(toLong)
    ensures dir[..] == Directions(from[..], to[..])
    ensures step[..] == ProportionalSteps(ColorDiffs(ChannelSeq(fromLong), ChannelSeq(toLong)), Constrain(fadestep, 1, 5))
    ensures color[..] == Starts(from[..])
  {
    Long2RGBArray(fromLong, from);
    Long2RGBArray(toLong, to);
    ghost var f, t := ChannelSeq(fromLong), ChannelSeq(toLong);
    assert from[..] == from[..3] == f;
    assert to[..] == to[..3] == t;
    var fs: int := fadestep;
    if fs < 1 {
      fs := 1;
    }
    if fs > 5 {
      fs := 5;
    }
    var coldiff := new int[3];
    SetDirections(from, to, dir, coldiff);
    ghost var d := coldiff[..];
    assert d == ColorDiffs(f, t);
    assert fs == Constrain(fadestep, 1, 5);
    SetSteps(coldiff, fs, step);
    StartAccumulators(from, color);
  }

  /** The first loop of `SetupTwoColorFade`: each direction is +1 exactly when the channel
      rises, and `coldiff` receives the absolute differences. */
  method SetDirections(from: array<int>, to: array<int>, dir: array<int>, coldiff: array<int>)
    requires from.Length == 3 && to.Length == 3 && dir.Length == 3 && coldiff.Length == 3
    requires dir != from && dir != to && dir != coldiff && coldiff != from && coldiff != to
    modifies dir, coldiff
    ensures dir[..] == Directions(from[..], to[..])
    ensures coldiff[..] == ColorDiffs(from[..], to[..])
  {
    for i := 0 to 3
      invariant forall k :: 0 <= k < i ==> coldiff[k] == Abs(from[k] - to[k])
      invariant forall k :: 0 <= k < i ==> dir[k] == FadeDirection(from[k], to[k])
    {
      coldiff[i] := from[i] - to[i];
      if coldiff[i] < 0 {
        dir[i] := 1;
      } else {
        dir[i] := -1;
      }
      coldiff[i] := Abs(coldiff[i]);
    }
  }

  /** The step assignment of `SetupTwoColorFade`: the lead channel (first maximum of
      `coldiff`) takes the full step, the others their proportional share. */
  method SetSteps(coldiff: array<int>, step: int, fadeStep: array<int>)
    requires coldiff.Length == 3 && fadeStep.Length == 3 && coldiff != fadeStep
    requires forall i :: 0 <= i < 3 ==> 0 <= coldiff[i]
    requires coldiff[LeadChannel(coldiff[..])] > 0 && 1 <= step <= 5
    modifies fadeStep
    ensures fadeStep[..] == ProportionalSteps(coldiff[..], step)
  {
    ghost var steps := ProportionalSteps(coldiff[..], step);
    if coldiff[0] >= coldiff[1] && coldiff[0] >= coldiff[2] {
      fadeStep[0] := 100 * step;
      fadeStep[1] := 100 * step * coldiff[1] / coldiff[0];
      fadeStep[2] := 100 * step * coldiff[2] / coldiff[0];
    } else if coldiff[1] >= coldiff[0] && coldiff[1] >= coldiff[2] {
      fadeStep[1] := 100 * step;
      fadeStep[0] := 100 * step * coldiff[0] / coldiff[1];
      fadeStep[2] := 100 * step * coldiff[2] / coldiff[1];
    } else {
      fadeStep[2] := 100 * step;
      fadeStep[1] := 100 * step * coldiff[1] / coldiff[2];
      fadeStep[0] := 100 * step * coldiff[0] / coldiff[2];
    }
    assert fadeStep[..] == [fadeStep[0], fadeStep[1], fadeStep[2]];
  }

  /** The last loop of `SetupTwoColorFade`: every accumulator starts on the `from` colour. */
  method StartAccumulators(from: array<int>, color: array<int>)
    requires from.Length == 3 && color.Length == 3 && from != color
    modifies color
    ensures color[..] == Starts(from[..])
  {
    for i := 0 to 3
      invariant forall k :: 0 <= k < i ==> color[k] == from[k] * 100
    {
      color[i] := from[i] * 100;
    }
  }

  /** The step loop of `TwoColorFade`: every accumulator moves by its step in its direction. */
  method AdvanceAccumulators(color: array<int>, dir: array<int>, step: array<int>)
    requires color.Length == 3 && dir.Length == 3 && step.Length == 3 && color != dir && color != step
    modifies color
    ensures color[..] == Advanced(old(color[..]), dir[..], step[..])
  {
    for i := 0 to 3
      invariant forall k :: 0 <= k < i ==> color[k] == old(color[k]) + dir[k] * step[k]
      invariant forall k :: i <= k < 3 ==> color[k] == old(color[k])
    {
      color[i] := color[i] + dir[i] * step[i];
    }
  }

  /** An accumulator between two channel values (×100) descales to a PWM value. */
  lemma ChannelOfAccumulator(color: int, from: int, to: int)
    requires IsChannel(from) && IsChannel(to)
    requires Min(from, to) * 100 <= color <= Max(from, to) * 100
    ensures IsChannel(CDiv(color, 100))
  {
  }
}
