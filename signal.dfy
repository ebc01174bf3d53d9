/** Numeric helpers and the parameter record shared by the audio engine, the
    sequencer, the hand tracker and the particle field.

    Every control value is a real number; a JavaScript number that may be NaN
    or infinite is a `Num`. */
module Signal {

  /** A JavaScript number as the configuration code sees it. */
  datatype Num = Finite(value: real) | NonFinite

  /** An optional value: `undefined`/`null` in the source is `None`. */
  datatype Option<T> = None | Some(value: T)

  /** A point or vector in three dimensions (THREE.Vector3 without the methods
      that are not used by the control logic). */
  datatype Vec3 = Vec3(x: real, y: real, z: real)

  /** One entry of the hand tracker's `handInfluences`: where a hand is in
      world space, how fast it moves, and how sure the tracker is of it. */
  datatype Influence = Influence(worldPos: Vec3, velocity: Vec3, confidence: real)

  /** The hand tracker's `gesture` summary: smoothed openness and fist
      scores, whether two hands are in view, and their separation in [0, 1]. */
  datatype Gesture = Gesture(open: real, fist: real, twoHands: bool, sep01: real)

  function Min(a: real, b: real): real { if a <= b then a else b }

  function Max(a: real, b: real): real { if a >= b then a else b }

  /** `Math.min(hi, Math.max(lo, v))`: the clamp written in every source file. */
  function Clamp(v: real, lo: real, hi: real): (r: real)
    ensures lo <= hi ==> lo <= r <= hi
    ensures lo <= v <= hi ==> r == v
    ensures lo <= hi && v <= lo ==> r == lo
    ensures hi <= v ==> r == hi
  {
    Min(hi, Max(lo, v))
  }

  /** `clamp01` of the hand router and of the particle field. */
  function Clamp01(v: real): (r: real)
    ensures 0.0 <= r <= 1.0
    ensures 0.0 <= v <= 1.0 ==> r == v
  {
    Clamp(v, 0.0, 1.0)
  }

  /** `num(v, d)`: the value itself when it is finite, otherwise the default. */
  function OrDefault(v: Num, d: real): (r: real)
    ensures v.Finite? ==> r == v.value
    ensures v.NonFinite? ==> r == d
  {
    match v
    case Finite(x) => x
    case NonFinite => d
  }

  /** One step of an exponential moving average: `cur + (target - cur) * s`.
      This is `ema` in the hand tracker, `smooth` and THREE's `lerp` in the
      particle field, and the bass-floor tracker of the analyser. For a factor
      in [0,1] the result lies between the current value and the target. */
  function Ema(cur: real, target: real, s: real): (r: real)
    ensures 0.0 <= s <= 1.0 ==> Min(cur, target) <= r <= Max(cur, target)
    ensures s == 0.0 ==> r == cur
    ensures s == 1.0 ==> r == target
  {
    EmaBetween(cur, target, s);
    cur + (target - cur) * s
  }

  lemma EmaBetween(cur: real, target: real, s: real)
    ensures 0.0 <= s <= 1.0 ==>
      Min(cur, target) <= cur + (target - cur) * s <= Max(cur, target)
  {
    if 0.0 <= s <= 1.0 {
      var d := target - cur;
      assert d * s + d * (1.0 - s) == d;
      if d >= 0.0 {
        assert d * s >= 0.0 && d * (1.0 - s) >= 0.0;
      } else {
        var e := cur - target;
        assert e * s >= 0.0 && e * (1.0 - s) >= 0.0;
        assert d * s == -(e * s) && d * (1.0 - s) == -(e * (1.0 - s));
      }
    }
  }

  lemma MulNonneg(x: real, y: real)
    requires x >= 0.0 && y >= 0.0
    ensures x * y >= 0.0
  {
  }

  /** Multiplying by a non-negative factor keeps an order. */
  lemma MulMono(x: real, y: real, z: real)
    requires x >= 0.0 && y <= z
    ensures x * y <= x * z
  {
    MulNonneg(x, z - y);
    assert x * z - x * y == x * (z - y);
  }

  /** An audio parameter (a gain or a filter frequency) as the control code
      drives it: the value it was last set to directly or anchored at, and the
      last linear ramp recorded on it, with its target and completion time.
      Web Audio renders the ramp itself; the model keeps what was asked of it. */
  datatype Bus = Bus(value: real, target: real, rampEnd: real) {

    /** `cancelScheduledValues` followed by `linearRampToValueAtTime`, or a
        plain `linearRampToValueAtTime`: only the last ramp is kept. */
    function RampTo(goal: real, at: real): Bus
    {
      Bus(value, goal, at)
    }

    /** Writing `.value` directly. */
    function SetValue(v: real): Bus
    {
      Bus(v, target, rampEnd)
    }
  }

  /** A parameter created with an initial value and no ramp yet. */
  function Steady(v: real): Bus
  {
    Bus(v, v, 0.0)
  }

  /** The number of steps of length `dur` that still fit before `horizon`,
      rounded down, plus one: the measure that makes a lookahead loop finish. */
  ghost function StepsLeft(t: real, horizon: real, dur: real): int
    requires dur > 0.0
  {
    if t < horizon then ((horizon - t) / dur).Floor + 1 else 0
  }

  lemma StepsLeftDecreases(t: real, horizon: real, dur: real)
    requires dur > 0.0 && t < horizon
    ensures 0 <= StepsLeft(t + dur, horizon, dur) < StepsLeft(t, horizon, dur)
  {
    var q := (horizon - t) / dur;
    assert q * dur == horizon - t;
    assert q > 0.0;
    var q' := (horizon - (t + dur)) / dur;
    assert q' * dur == horizon - t - dur;
    assert (q - 1.0) * dur == q * dur - dur;
    var e := q' - (q - 1.0);
    assert e * dur == 0.0;
    assert q' == q - 1.0;
    assert (q - 1.0).Floor == q.Floor - 1;
  }
}
