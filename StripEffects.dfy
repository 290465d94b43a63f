/** The arithmetic of the RGB strip and its effects, as functions of values: brightness
    scaling, the timing tests shared by the effects, the colour playlist, the rainbow ramp and
    the fixed-point two-colour fade. The `RGBStrip` class in module Strip is specified by
    these functions. */
module StripEffects {
  import opened Platform
  import opened Colors

  /** The values last handed to `analogWrite` on the red, green and blue pins. */
  datatype Rgb = Rgb(red: int, green: int, blue: int)

  /** A PWM duty value that `analogWrite` accepts. */
  predicate IsChannel(v: int) {
    0 <= v <= 255
  }

  /** Three PWM values, as a colour is held in an `int[3]`. */
  predicate IsColor(s: seq<int>) {
    |s| == 3 && forall i :: 0 <= i < 3 ==> IsChannel(s[i])
  }

  // ---------------------------------------------------------------------------------------
  // Brightness

  /** One channel as `LightStrip` writes it: `v * brightness / 100`, truncating. */
  function Scale(v: int, brightness: int): (w: int)
    ensures IsChannel(v) && 0 <= brightness <= 100 ==> 0 <= w <= v
    ensures brightness == 100 ==> w == v
    ensures brightness == 0 ==> w == 0
  {
    ScaleBound(v, brightness);
    CDiv(v * brightness, 100)
  }

  /** `Scale` is the quotient of `v * brightness` by 100, truncated toward zero. */
  lemma ScaleTruncates(v: int, brightness: int)
    ensures var w := Scale(v, brightness);
            (v * brightness >= 0 ==> w * 100 <= v * brightness < w * 100 + 100) &&
            (v * brightness < 0 ==> w * 100 - 100 < v * brightness <= w * 100)
  {
  }

  lemma ScaleBound(v: int, brightness: int)
    ensures IsChannel(v) && 0 <= brightness <= 100 ==> 0 <= v * brightness <= v * 100
  {
    if IsChannel(v) && 0 <= brightness <= 100 {
      assert v * brightness <= v * 100 by {
        assert v * (100 - brightness) >= 0;
      }
    }
  }

  /** The three channels as `LightStrip` writes them. */
  function Dimmed(red: int, green: int, blue: int, brightness: int): (w: Rgb)
    ensures IsChannel(red) && IsChannel(green) && IsChannel(blue) && 0 <= brightness <= 100 ==>
              IsChannel(w.red) && IsChannel(w.green) && IsChannel(w.blue)
  {
    Rgb(Scale(red, brightness), Scale(green, brightness), Scale(blue, brightness))
  }

  // ---------------------------------------------------------------------------------------
  // Timing shared by the three timed effects

  /** A running effect expires once more than `duration` ms have passed since it started
      (the `int` duration is compared as an `unsigned long`). */
  predicate Expires(active: bool, now: uint32, start: uint32, duration: int16) {
    active && Elapsed(now, start) > ToULong(duration)
  }

  /** The current colour or step has been shown for at least `duration` ms. */
  predicate Due(now: uint32, last: uint32, duration: int16) {
    Elapsed(now, last) >= ToULong(duration)
  }

  // ---------------------------------------------------------------------------------------
  // MultiColorFlash playlist

  /** The index of the colour `MultiColorFlash` switches to: a draw of `random(0, n - 1)` in
      random order, otherwise the next index, wrapping to 0 after the last colour. */
  function NextColorIndex(index: int, nrOfColors: int, randSequence: bool, draw: nat): (next: int)
    requires 0 <= nrOfColors <= 5 && 0 <= index < Max(nrOfColors, 1)
    ensures 0 <= next < Max(nrOfColors, 1)
    ensures !randSequence ==> next == (index + 1) % Max(nrOfColors, 1)
    ensures randSequence ==> next == Random(0, nrOfColors - 1, draw)
    ensures randSequence && nrOfColors >= 2 ==> next < nrOfColors - 1
  {
    if randSequence then
      Random(0, nrOfColors - 1, draw)
    else if index + 1 > nrOfColors - 1 then
      0
    else
      index + 1
  }

  /** The index after `k` sequential switches from `index`. */
  function SequentialAfter(index: int, nrOfColors: int, k: nat): (i: int)
    requires 0 <= nrOfColors <= 5 && 0 <= index < Max(nrOfColors, 1)
    ensures 0 <= i < Max(nrOfColors, 1)
  {
    if k == 0 then index else NextColorIndex(SequentialAfter(index, nrOfColors, k - 1), nrOfColors, false, 0)
  }

  /** In sequential order the playlist starts at the first colour and shows the colours in
      turn: after `k` switches it shows colour `k mod n`. */
  lemma {:induction false} SequentialCycles(nrOfColors: int, k: nat)
    requires 1 <= nrOfColors <= 5
    ensures SequentialAfter(0, nrOfColors, k) == k % nrOfColors
  {
    if k > 0 {
      SequentialCycles(nrOfColors, k - 1);
      ModSucc(k - 1, nrOfColors);
    }
  }

  // ---------------------------------------------------------------------------------------
  // RainbowColorChange

  /** The channel (0 red, 1 green, 2 blue) that ramps during phase `k` of the rainbow cycle:
      red, blue, green, red, blue, green. */
  function PhaseChannel(k: int): (ch: int)
    ensures 0 <= ch < 3
  {
    if k % 3 == 0 then 0 else if k % 3 == 1 then 2 else 1
  }

  /** `c` with channel `ch` (0 red, 1 green, 2 blue) replaced by `v`. */
  function WithChannel(c: Rgb, ch: int, v: int): Rgb {
    if ch == 0 then c.(red := v) else if ch == 1 then c.(green := v) else c.(blue := v)
  }

  /** The rainbow channels after `t` ms of a cycle of six phases of `256 * speed` ms each:
      at most one channel differs from `c`. */
  function RainbowRamp(c: Rgb, t: int, speed: int): (r: Rgb)
    requires speed >= 1 && 0 <= t < speed * 6 * 256
    ensures (r.green == c.green && r.blue == c.blue) || (r.red == c.red && r.blue == c.blue) ||
            (r.red == c.red && r.green == c.green)
  {
    if t < speed * 1 * 256 then
      c.(red := t / speed)
    else if t < speed * 2 * 256 then
      c.(blue := 255 - (t - speed * 1 * 256) / speed)
    else if t < speed * 3 * 256 then
      c.(green := (t - speed * 2 * 256) / speed)
    else if t < speed * 4 * 256 then
      c.(red := 255 - (t - speed * 3 * 256) / speed)
    else if t < speed * 5 * 256 then
      c.(blue := (t - speed * 4 * 256) / speed)
    else
      c.(green := 255 - (t - speed * 5 * 256) / speed)
  }

  /** During phase `k = t / (256 * speed)` exactly one channel is reassigned, chosen by
      `PhaseChannel(k)`; it rises from 0 to 255 in even phases and falls from 255 to 0 in odd
      ones, one unit per `speed` ms, and the other two channels keep their values. */
  lemma RainbowPhases(c: Rgb, t: int, speed: int)
    requires speed >= 1 && 0 <= t < speed * 6 * 256
    ensures var k := t / (speed * 256);
            var pos := (t - k * (speed * 256)) / speed;
            0 <= k < 6 && IsChannel(pos) &&
            RainbowRamp(c, t, speed) == WithChannel(c, PhaseChannel(k), if k % 2 == 0 then pos else 255 - pos)
  {
    var m := speed * 256;
    var k := t / m;
    if t < m {
      DivIs(t, m, 0);
    } else if t < 2 * m {
      DivIs(t, m, 1);
    } else if t < 3 * m {
      DivIs(t, m, 2);
    } else if t < 4 * m {
      DivIs(t, m, 3);
    } else if t < 5 * m {
      DivIs(t, m, 4);
    } else {
      DivIs(t, m, 5);
    }
    assert 0 <= t - k * m < m;
    DivAtMost(t - k * m, speed, 255);
  }

  /** Channels in range stay in range through the whole cycle. */
  lemma RainbowKeepsChannels(c: Rgb, t: int, speed: int)
    requires speed >= 1 && 0 <= t < speed * 6 * 256
    requires IsChannel(c.red) && IsChannel(c.green) && IsChannel(c.blue)
    ensures var r := RainbowRamp(c, t, speed);
            IsChannel(r.red) && IsChannel(r.green) && IsChannel(r.blue)
  {
    RainbowPhases(c, t, speed);
  }

  // ---------------------------------------------------------------------------------------
  // TwoColorFade

  function Abs(x: int): int {
    if x < 0 then -x else x
  }

  /** `_fadedir[i]` as `SetupTwoColorFade` sets it. */
  function FadeDirection(from: int, to: int): (dir: int)
    ensures dir == 1 || dir == -1
    ensures dir == 1 <==> from < to
  {
    if from - to < 0 then 1 else -1
  }

  /** The three directions `SetupTwoColorFade` sets. */
  function Directions(from: seq<int>, to: seq<int>): (dir: seq<int>)
    requires |from| == |to| == 3
    ensures |dir| == 3 && forall i :: 0 <= i < 3 ==> dir[i] == FadeDirection(from[i], to[i])
  {
    [FadeDirection(from[0], to[0]), FadeDirection(from[1], to[1]), FadeDirection(from[2], to[2])]
  }

  /** The accumulators at the start of a fade: the `from` colour in the ×100 fixed point. */
  function Starts(from: seq<int>): (color: seq<int>)
    requires |from| == 3
    ensures |color| == 3 && forall i :: 0 <= i < 3 ==> color[i] == from[i] * 100
  {
    [from[0] * 100, from[1] * 100, from[2] * 100]
  }

  /** The channel with the largest colour difference, in the order of the source's tests: the
      first index holding the maximum. */
  function LeadChannel(d: seq<int>): (k: nat)
    requires |d| == 3
    ensures k < 3
    ensures forall i :: 0 <= i < 3 ==> d[i] <= d[k]
    ensures forall i :: 0 <= i < k ==> d[i] < d[k]
  {
    if d[0] >= d[1] && d[0] >= d[2] then 0
    else if d[1] >= d[0] && d[1] >= d[2] then 1
    else 2
  }

  /** The per-channel differences `|from[i] - to[i]|`. */
  function ColorDiffs(from: seq<int>, to: seq<int>): (d: seq<int>)
    requires |from| == |to| == 3
    ensures |d| == 3 && forall i :: 0 <= i < 3 ==> d[i] == Abs(from[i] - to[i])
  {
    [Abs(from[0] - to[0]), Abs(from[1] - to[1]), Abs(from[2] - to[2])]
  }

  /** The channels of a packed colour as `Long2RGB` stores them in an `int[3]`. */
  function ChannelSeq(color: bv32): (s: seq<int>)
    ensures IsColor(s)
  {
    [Long2RGBInt(color).0, Long2RGBInt(color).1, Long2RGBInt(color).2]
  }

  /** `SetupTwoColorFade` divides by the lead difference, so at least one channel of the two
      colours must differ; and its step products must fit in 16-bit `int`. */
  predicate FadeSetupDefined(from: bv32, to: bv32, fadeStep: int) {
    var d := ColorDiffs(ChannelSeq(from), ChannelSeq(to));
    d[LeadChannel(d)] > 0 && StepsFit(d, Constrain(fadeStep, 1, 5))
  }

  /** The products `100 * fadestep * coldiff[i]` that the source evaluates in 16-bit `int`
      (those of the two channels other than the lead one) do not overflow. */
  predicate StepsFit(d: seq<int>, fadeStep: int)
    requires |d| == 3
  {
    forall i {:trigger ProductFits(fadeStep, d[i])} :: 0 <= i < 3 && i != LeadChannel(d) ==> ProductFits(fadeStep, d[i])
  }

  /** `100 * fadestep * coldiff` is representable in 16-bit `int`. */
  predicate ProductFits(fadeStep: int, diff: int) {
    100 * fadeStep * diff <= INT16_MAX
  }

  /** `_fadestep` as `SetupTwoColorFade` computes it: the lead channel moves by the full step
      `100 * fadeStep`, each other channel by the same step in proportion to its share of the
      lead difference, rounded down. */
  function ProportionalSteps(d: seq<int>, fadeStep: int): (steps: seq<int>)
    requires |d| == 3 && forall i :: 0 <= i < 3 ==> 0 <= d[i]
    requires d[LeadChannel(d)] > 0 && 1 <= fadeStep <= 5
    ensures |steps| == 3
    ensures steps[LeadChannel(d)] == 100 * fadeStep
    ensures forall i :: 0 <= i < 3 ==> 0 <= steps[i] <= 100 * fadeStep
  {
    var k := LeadChannel(d);
    ShareOfStep(100 * fadeStep, d[0], d[k]);
    ShareOfStep(100 * fadeStep, d[1], d[k]);
    ShareOfStep(100 * fadeStep, d[2], d[k]);
    if d[0] >= d[1] && d[0] >= d[2] then
      [100 * fadeStep, 100 * fadeStep * d[1] / d[0], 100 * fadeStep * d[2] / d[0]]
    else if d[1] >= d[0] && d[1] >= d[2] then
      [100 * fadeStep * d[0] / d[1], 100 * fadeStep, 100 * fadeStep * d[2] / d[1]]
    else
      [100 * fadeStep * d[0] / d[2], 100 * fadeStep * d[1] / d[2], 100 * fadeStep]
  }

  /** Each channel's step is its share of the full step, in proportion to its colour
      difference over the lead difference, rounded down. */
  lemma StepsAreShares(d: seq<int>, fadeStep: int)
    requires |d| == 3 && forall i :: 0 <= i < 3 ==> 0 <= d[i]
    requires d[LeadChannel(d)] > 0 && 1 <= fadeStep <= 5
    ensures forall i :: 0 <= i < 3 ==>
              ProportionalSteps(d, fadeStep)[i] == 100 * fadeStep * d[i] / d[LeadChannel(d)]
  {
    var s, x := ProportionalSteps(d, fadeStep), 100 * fadeStep;
    if d[0] >= d[1] && d[0] >= d[2] {
      assert s == [x, x * d[1] / d[0], x * d[2] / d[0]];
      DivIs(x * d[0], d[0], x);
    } else if d[1] >= d[0] && d[1] >= d[2] {
      assert s == [x * d[0] / d[1], x, x * d[2] / d[1]];
      DivIs(x * d[1], d[1], x);
    } else {
      assert s == [x * d[0] / d[2], x * d[1] / d[2], x];
      DivIs(x * d[2], d[2], x);
    }
  }

  lemma ShareOfStep(x: int, a: int, b: int)
    requires x >= 0 && 0 <= a <= b && b > 0
    ensures 0 <= x * a / b <= x
    ensures x * b / b == x
  {
    MulMono(a, b, x);
    DivAtMost(x * a, b, x);
    DivIs(x * b, b, x);
  }

  /** The endpoint (in the ×100 fixed point of the accumulators) that a channel travelling in
      direction `dir` is heading for: the larger colour value when rising, the smaller one
      otherwise. */
  function Endpoint(from: int, to: int, dir: int): int {
    if dir == 1 then Max(from, to) * 100 else Min(from, to) * 100
  }

  /** `DetectColorLimit`: a rising channel beyond the larger value, or a non-rising one below
      the smaller value, has overshot. */
  function DetectColorLimit(color: int, from: int, to: int, dir: int): (hit: bool)
    ensures hit && dir == 1 ==> color > from && color > to
    ensures hit && dir != 1 ==> color < from && color < to
    ensures !hit ==> if dir == 1 then color <= Max(from, to) else color >= Min(from, to)
  {
    if dir == 1 then color > Max(from, to) else color < Min(from, to)
  }

  /** The accumulators after one step: each moves by its step in its direction. */
  function Advanced(color: seq<int>, dir: seq<int>, step: seq<int>): (a: seq<int>)
    requires |color| == |dir| == |step| == 3
    ensures |a| == 3
  {
    [color[0] + dir[0] * step[0], color[1] + dir[1] * step[1], color[2] + dir[2] * step[2]]
  }

  /** Some channel has overshot the endpoint it travels towards. */
  predicate Overshoot(color: seq<int>, dir: seq<int>, from: seq<int>, to: seq<int>)
    requires |color| == |dir| == |from| == |to| == 3
  {
    DetectColorLimit(color[0], from[0] * 100, to[0] * 100, dir[0]) ||
    DetectColorLimit(color[1], from[1] * 100, to[1] * 100, dir[1]) ||
    DetectColorLimit(color[2], from[2] * 100, to[2] * 100, dir[2])
  }

  /** The accumulators after `SwitchDir`. */
  function Snapped(dir: seq<int>, from: seq<int>, to: seq<int>): (s: seq<int>)
    requires |dir| == |from| == |to| == 3
    ensures |s| == 3
  {
    [Endpoint(from[0], to[0], dir[0]), Endpoint(from[1], to[1], dir[1]), Endpoint(from[2], to[2], dir[2])]
  }

  /** The directions after `SwitchDir`. */
  function Negated(dir: seq<int>): (n: seq<int>)
    requires |dir| == 3
    ensures |n| == 3 && forall i :: 0 <= i < 3 ==> n[i] == -dir[i]
  {
    [-dir[0], -dir[1], -dir[2]]
  }

  /** Accumulators and directions of the fade. */
  datatype Fade = Fade(color: seq<int>, dir: seq<int>)

  /** One fade step of `TwoColorFade`: advance every channel; if any channel has overshot,
      put every channel on the endpoint it was travelling towards and reverse them all. */
  function FadeTick(color: seq<int>, dir: seq<int>, from: seq<int>, to: seq<int>, step: seq<int>): (f: Fade)
    requires |color| == |dir| == |from| == |to| == |step| == 3
    ensures |f.color| == 3 && |f.dir| == 3
    ensures Overshoot(Advanced(color, dir, step), dir, from, to) ==>
              f.dir == Negated(dir) &&
              forall i :: 0 <= i < 3 ==> f.color[i] == Endpoint(from[i], to[i], dir[i])
    ensures !Overshoot(Advanced(color, dir, step), dir, from, to) ==>
              f.dir == dir &&
              forall i :: 0 <= i < 3 ==> f.color[i] == color[i] + dir[i] * step[i]
  {
    var a := Advanced(color, dir, step);
    if Overshoot(a, dir, from, to) then Fade(Snapped(dir, from, to), Negated(dir)) else Fade(a, dir)
  }

  /** The fade's invariant: every accumulator lies between the two colours (×100), every
      direction is -1, 0 or +1 (0 only before the first set-up), every step is nonnegative. */
  ghost predicate FadeInv(color: seq<int>, dir: seq<int>, from: seq<int>, to: seq<int>, step: seq<int>) {
    |color| == |dir| == |from| == |to| == |step| == 3 &&
    forall i :: 0 <= i < 3 ==>
      -1 <= dir[i] <= 1 && 0 <= step[i] &&
      Min(from[i], to[i]) * 100 <= color[i] <= Max(from[i], to[i]) * 100
  }

  /** After every fade step each accumulator is still between the two colours. */
  lemma FadeTickKeepsRange(color: seq<int>, dir: seq<int>, from: seq<int>, to: seq<int>, step: seq<int>)
    requires FadeInv(color, dir, from, to, step)
    ensures var f := FadeTick(color, dir, from, to, step);
            FadeInv(f.color, f.dir, from, to, step)
  {
    var a := Advanced(color, dir, step);
    var f := FadeTick(color, dir, from, to, step);
    if !Overshoot(a, dir, from, to) {
      forall i | 0 <= i < 3
        ensures Min(from[i], to[i]) * 100 <= f.color[i] <= Max(from[i], to[i]) * 100
      {
        assert !DetectColorLimit(a[i], from[i] * 100, to[i] * 100, dir[i]);
        assert Max(from[i] * 100, to[i] * 100) == Max(from[i], to[i]) * 100;
        assert Min(from[i] * 100, to[i] * 100) == Min(from[i], to[i]) * 100;
      }
    }
  }

  /** `SetupTwoColorFade` establishes the invariant: every accumulator starts on its `from`
      value and heads for its `to` value. */
  lemma SetupEstablishesFadeInv(from: seq<int>, to: seq<int>, steps: seq<int>)
    requires |from| == |to| == |steps| == 3
    requires forall i :: 0 <= i < 3 ==> 0 <= steps[i]
    ensures FadeInv(Starts(from), Directions(from, to), from, to, steps)
    ensures forall i :: 0 <= i < 3 ==> Starts(from)[i] == Endpoint(from[i], to[i], -Directions(from, to)[i])
  {
  }
}
