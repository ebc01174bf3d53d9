/** The media side of the audio engine and its "break" overlay: the spectral
    analyser and media pump, the hand-to-effects router, and the persistent
    groove layer that plays while the user pinches.

    Web Audio nodes are reduced to the parameters the control code writes
    (`Bus`); the sequencer is the verified `Techno.Engine`. */
module Audio {
  import opened Signal
  import Techno

  // ---- GROOVE profile ----
  const BreakGainBase: real := 0.7
  const BreakGainSpan: real := 0.5
  const DuckFloorMin: real := 0.75
  const DuckFloorMax: real := 0.90
  const MixKick: real := 0.55
  const MixSnare: real := 0.50
  const MixHat: real := 0.35
  const MixCrash: real := 0.22

  // ---- the settings the control code reads, with their defaults applied ----
  const BaseMaster: real := 1.0       // settings.masterGain
  const BaseEngine: real := 0.9       // settings.technoGain
  const SettingsBpm: real := 126.0    // settings.bpm
  const LpfMin: real := 180.0         // settings.masterLPFMin
  const LpfMax: real := 18000.0       // settings.masterLPFMax
  const DelayMin: real := 0.09        // settings.delayMinMS / 1000
  const DelayMax: real := 0.22        // settings.delayMaxMS / 1000
  const FeedbackBase: real := 0.25    // settings.delayFeedback
  const DefaultPump: real := 0.15     // DEF.pumpAmount
  const AutoTechno: bool := true      // settings.autoTechnoWhenNoTrack

  /** How far ahead of the clock the overlay scheduler books its steps. */
  const ScheduleAheadTime: real := 0.15

  /** The overlay pattern is a bar of sixteen sixteenth notes. */
  const OverlaySteps: int := 16

  /** `safeSet(param, value, def, min, max)`: the value, or the default when
      it is not a finite number, clamped into [min, max] and written to the
      parameter directly; the ramp recorded on it stays. */
  function SafeSet(param: Bus, value: Num, def: real, lo: real, hi: real): (r: Bus)
    requires lo <= hi
    ensures lo <= r.value <= hi
    ensures r.target == param.target && r.rampEnd == param.rampEnd
    ensures value.Finite? && lo <= value.value <= hi ==> r.value == value.value
    ensures value.NonFinite? ==> r.value == Clamp(def, lo, hi)
  {
    param.SetValue(Clamp(OrDefault(value, def), lo, hi))
  }

  /** Setting a parameter to the value it already holds changes nothing. */
  lemma SafeSetIdempotent(param: Bus, value: Num, def: real, lo: real, hi: real)
    requires lo <= hi
    ensures var r := SafeSet(param, value, def, lo, hi);
      SafeSet(r, Finite(r.value), def, lo, hi) == r
  {
  }

  // ===================================================================
  // Break levels
  // ===================================================================

  /** The overlay loudness for a gesture strength:
      `breakGainBase + breakGainSpan * s` with s clamped to [0, 1]. */
  function BreakTargetGain(strength: real): (g: real)
    ensures BreakGainBase <= g <= BreakGainBase + BreakGainSpan
  {
    BreakGainBase + BreakGainSpan * Clamp01(strength)
  }

  /** How much of the media and engine mix survives under the overlay:
      from `duckFloorMax` for a soft pinch down to `duckFloorMin` for a full one. */
  function BreakDuckFloor(strength: real): (f: real)
    ensures DuckFloorMin <= f <= DuckFloorMax
  {
    DuckFloorMax - (DuckFloorMax - DuckFloorMin) * Clamp01(strength)
  }

  /** A stronger pinch makes the overlay louder and the duck deeper; strengths
      outside [0, 1] saturate. */
  lemma BreakLevelsMonotone(s: real, s': real)
    requires s <= s'
    ensures BreakTargetGain(s) <= BreakTargetGain(s')
    ensures BreakDuckFloor(s) >= BreakDuckFloor(s')
    ensures s <= 0.0 ==> BreakTargetGain(s) == 0.7 && BreakDuckFloor(s) == 0.9
    ensures s' >= 1.0 ==> BreakTargetGain(s') == 1.2 && BreakDuckFloor(s') == 0.75
  {
  }

  /** Half strength: gain 0.95, floor 0.825. */
  lemma BreakLevelsHalf()
    ensures BreakTargetGain(0.5) == 0.95 && BreakDuckFloor(0.5) == 0.825
  {
  }

  // ===================================================================
  // Spectrum analysis
  // ===================================================================

  /** One bin of `getByteFrequencyData`. */
  type Byte = x: int | 0 <= x < 256

  /** The sum of the bins `data[lo..hi]`. */
  function SumRange(data: seq<Byte>, lo: nat, hi: nat): int
    requires lo <= hi <= |data|
    decreases hi - lo
  {
    if lo == hi then 0 else SumRange(data, lo, hi - 1) + data[hi - 1]
  }

  lemma {:induction false} SumRangeBounds(data: seq<Byte>, lo: nat, hi: nat)
    requires lo <= hi <= |data|
    ensures 0 <= SumRange(data, lo, hi) <= 255 * (hi - lo)
    decreases hi - lo
  {
    if lo < hi {
      SumRangeBounds(data, lo, hi - 1);
    }
  }

  /** Summing two adjacent ranges is summing their union. */
  lemma {:induction false} SumRangeSplit(data: seq<Byte>, lo: nat, mid: nat, hi: nat)
    requires lo <= mid <= hi <= |data|
    ensures SumRange(data, lo, mid) + SumRange(data, mid, hi) == SumRange(data, lo, hi)
    decreases hi - mid
  {
    if mid < hi {
      SumRangeSplit(data, lo, mid, hi - 1);
    }
  }

  /** One of the analyser's summing loops. */
  method SumBins(data: seq<Byte>, lo: nat, hi: nat) returns (s: int)
    requires lo <= hi <= |data|
    ensures s == SumRange(data, lo, hi)
  {
    s := 0;
    for i := lo to hi
      invariant s == SumRange(data, lo, i)
    {
      s := s + data[i];
    }
  }

  /** `Math.floor(n * 0.10)`, the end of the bass band. */
  function BassEnd(n: nat): int
  {
    ((n as real) * 0.10).Floor
  }

  /** `Math.floor(n * 0.40)`, the end of the mid band. */
  function MidEnd(n: nat): int
  {
    ((n as real) * 0.40).Floor
  }

  /** The cut points are n/10 and 2n/5 rounded down, so the three bands
      [0, bassEnd), [bassEnd, midEnd) and [midEnd, n) tile the bins. */
  lemma CutPoints(n: nat)
    ensures BassEnd(n) == n / 10 && MidEnd(n) == 2 * n / 5
    ensures 0 <= BassEnd(n) <= MidEnd(n) <= n
  {
    FloorOfFraction(n, 10, 1);
    FloorOfFraction(n, 5, 2);
  }

  /** `floor(n * (c / d)) == (c * n) / d` for the exact fraction c / d. */
  lemma FloorOfFraction(n: nat, d: nat, c: nat)
    requires 0 < d && (c == 1 || c == 2) && (d == 10 || d == 5)
    ensures ((n as real) * ((c as real) / (d as real))).Floor == (c * n) / d
  {
    var q := (c * n) / d;
    var r := (c * n) % d;
    assert c * n == d * q + r;
    var x := (n as real) * ((c as real) / (d as real));
    assert x * (d as real) == (c * n) as real;
    assert x == (q as real) + (r as real) / (d as real);
    assert 0.0 <= (r as real) / (d as real) < 1.0;
  }

  /** A band's mean bin value scaled to [0, 1]: `(sum / max(1, width)) / 255`. */
  function BandMean(data: seq<Byte>, lo: nat, hi: nat): (m: real)
    requires lo <= hi <= |data|
    ensures 0.0 <= m <= 1.0
    ensures lo == hi ==> m == 0.0
  {
    SumRangeBounds(data, lo, hi);
    MeanBound(SumRange(data, lo, hi) as real, (hi - lo) as real);
    (SumRange(data, lo, hi) as real / Max(1.0, (hi - lo) as real)) / 255.0
  }

  lemma DivBelow(s: real, d: real, c: real)
    requires d > 0.0 && 0.0 <= s <= c * d
    ensures 0.0 <= s / d <= c
  {
  }

  lemma MeanBound(s: real, w: real)
    requires 0.0 <= w && 0.0 <= s <= 255.0 * w
    ensures 0.0 <= (s / Max(1.0, w)) / 255.0 <= 1.0
  {
    DivBelow(s, Max(1.0, w), 255.0);
  }

  /** The overall level `sum / (n * 255)`. */
  function Level(data: seq<Byte>): (l: real)
    requires |data| > 0
    ensures 0.0 <= l <= 1.0
  {
    SumRangeBounds(data, 0, |data|);
    LevelBound(SumRange(data, 0, |data|) as real, |data| as real);
    (SumRange(data, 0, |data|) as real) / ((|data| as real) * 255.0)
  }

  lemma LevelBound(s: real, n: real)
    requires 1.0 <= n && 0.0 <= s <= 255.0 * n
    ensures 0.0 <= s / (n * 255.0) <= 1.0
  {
    DivBelow(s, n * 255.0, 1.0);
  }

  /** The summing loops of `analyzeAudio` and the band means they give. */
  method MeasureSpectrum(data: seq<Byte>) returns (bands: Bands)
    requires |data| > 0
    ensures bands == Spectrum(data)
  {
    var n := |data|;
    var sum := SumBins(data, 0, n);
    var level := (sum as real) / ((n as real) * 255.0);
    var bassEnd := ((n as real) * 0.10).Floor;
    var midEnd := ((n as real) * 0.40).Floor;
    CutPoints(n);
    var bass := MeasureBand(data, 0, bassEnd);
    var mid := MeasureBand(data, bassEnd, midEnd);
    var treble := MeasureBand(data, midEnd, n);
    bands := Bands(bass, mid, treble, level);
  }

  /** One band loop and its normalisation. */
  method MeasureBand(data: seq<Byte>, lo: nat, hi: nat) returns (mean: real)
    requires lo <= hi <= |data|
    ensures mean == BandMean(data, lo, hi)
  {
    var s := SumBins(data, lo, hi);
    mean := (s as real / Max(1.0, (hi - lo) as real)) / 255.0;
  }

  /** `frequencyData`: three band means and the overall level. */
  datatype Bands = Bands(bass: real, mid: real, treble: real, level: real)

  /** What the analyser computes from one frame of bins. */
  function Spectrum(data: seq<Byte>): (b: Bands)
    requires |data| > 0
    ensures 0.0 <= b.bass <= 1.0 && 0.0 <= b.mid <= 1.0
    ensures 0.0 <= b.treble <= 1.0 && 0.0 <= b.level <= 1.0
  {
    var n := |data|;
    CutPoints(n);
    Bands(BandMean(data, 0, BassEnd(n)), BandMean(data, BassEnd(n), MidEnd(n)),
          BandMean(data, MidEnd(n), n), Level(data))
  }

  /** The three band loops visit every bin exactly once: their sums add up to
      the sum behind `level`. */
  lemma BandsPartition(data: seq<Byte>)
    requires |data| > 0
    ensures 0 <= BassEnd(|data|) <= MidEnd(|data|) <= |data|
    ensures SumRange(data, 0, BassEnd(|data|)) + SumRange(data, BassEnd(|data|), MidEnd(|data|))
              + SumRange(data, MidEnd(|data|), |data|) == SumRange(data, 0, |data|)
  {
    var n := |data|;
    CutPoints(n);
    SumRangeSplit(data, 0, BassEnd(n), MidEnd(n));
    SumRangeSplit(data, 0, MidEnd(n), n);
  }

  /** With fewer than ten bins the bass band is empty and reads 0, through the
      `max(1, ·)` divisor rather than a division by zero. */
  lemma TinySpectrum(data: seq<Byte>)
    requires 0 < |data| < 10
    ensures Spectrum(data).bass == 0.0
  {
    CutPoints(|data|);
  }

  /** The kick seen in the media: how far the bass rises above its floor,
      six times amplified and clamped. */
  function KickFromAudio(bass: real, floor: real): (k: real)
    ensures 0.0 <= k <= 1.0
    ensures bass <= floor ==> k == 0.0
    ensures bass >= floor + 1.0 / 6.0 ==> k == 1.0
  {
    Clamp((bass - floor) * 6.0, 0.0, 1.0)
  }

  /** The pump depth: `settings.pumpAmount`, replaced by the default when it is
      not a finite number, clamped to [0, 0.85]. */
  function PumpAmount(setting: Num): (a: real)
    ensures 0.0 <= a <= 0.85
    ensures setting.NonFinite? ==> a == DefaultPump
    ensures setting.Finite? && 0.0 <= setting.value <= 0.85 ==> a == setting.value
  {
    Clamp(OrDefault(setting, DefaultPump), 0.0, 0.85)
  }

  /** The master gain the pump writes for a kick pulse and a pump depth. */
  function PumpedGain(kick: real, amount: real): (g: real)
    ensures 0.0 <= g <= 2.0
  {
    Clamp(BaseMaster * (1.0 - amount * kick), 0.0, 2.0)
  }

  /** For a pulse in [0, 1] and a depth the pump allows, the pump only ever
      dips the master below its base (`baseMaster` = 1), never by more than
      85%, leaves it alone without a kick, and dips deeper for a stronger
      kick. */
  lemma PumpRange(kick: real, kick2: real, amount: real)
    requires 0.0 <= kick <= kick2 <= 1.0 && 0.0 <= amount <= 0.85
    ensures 0.15 <= PumpedGain(kick, amount) <= 1.0
    ensures kick == 0.0 ==> PumpedGain(kick, amount) == 1.0
    ensures PumpedGain(kick2, amount) <= PumpedGain(kick, amount)
  {
    GainOfDip(kick, amount);
    DeeperDip(kick, kick2, amount);
  }

  /** A stronger kick never raises the pumped gain. */
  lemma DeeperDip(kick: real, kick2: real, amount: real)
    requires 0.0 <= kick <= kick2 <= 1.0 && 0.0 <= amount <= 0.85
    ensures PumpedGain(kick2, amount) <= PumpedGain(kick, amount)
  {
    GainOfDip(kick, amount);
    GainOfDip(kick2, amount);
    MulMono(amount, kick, kick2);
  }

  /** Inside the pump's range the clamp is idle: the gain is `1 - amount * kick`,
      which lies in [0.15, 1]. */
  lemma GainOfDip(kick: real, amount: real)
    requires 0.0 <= kick <= 1.0 && 0.0 <= amount <= 0.85
    ensures PumpedGain(kick, amount) == 1.0 - amount * kick
    ensures 0.15 <= PumpedGain(kick, amount) <= 1.0
  {
    MulNonneg(amount, kick);
    MulMono(amount, kick, 1.0);
    assert amount * 1.0 == amount;
    assert amount * kick <= 0.85;
    var x := 1.0 - amount * kick;
    assert 0.15 <= x <= 1.0;
    UnitBase(x);
    assert PumpedGain(kick, amount) == Clamp(x, 0.0, 2.0);
  }

  lemma UnitBase(x: real)
    ensures BaseMaster * x == x
  {
  }

  // ===================================================================
  // Hand routing
  // ===================================================================

  /** The effect settings one call of the hand router writes. */
  datatype Controls = Controls(cutoff: real, delay: real, feedback: real, bpm: real)

  /** A world coordinate in [-30, 30] mapped onto [0, 1]; 0 maps to 0.5. */
  function Unit(c: real): (u: real)
    ensures 0.0 <= u <= 1.0
    ensures -30.0 <= c <= 30.0 ==> u == (c + 30.0) / 60.0
  {
    Clamp01((c + 30.0) / 60.0)
  }

  /** The tempo factor as written: `0.9 + 0.2 * (y01 - 0.5)`. */
  function BpmFactorAsWritten(y01: real): real
  {
    0.9 + 0.2 * (y01 - 0.5)
  }

  /** The tempo factor the "±10%" comment describes. */
  function BpmFactor(y01: real): real
  {
    1.0 + 0.2 * (y01 - 0.5)
  }

  /** As written, the factor only slows the tempo: it spans 0.8 to 1.0, and a
      hand at rest at the centre (or no hand at all) plays at 0.9 times the
      base tempo. */
  lemma BpmFactorAsWrittenOnlySlows(y01: real)
    requires 0.0 <= y01 <= 1.0
    ensures 0.8 <= BpmFactorAsWritten(y01) <= 1.0
    ensures BpmFactorAsWritten(0.5) == 0.9
    ensures SettingsBpm * BpmFactorAsWritten(0.5) == 113.4
  {
  }

  /** Corrected, the factor spans ±10% around 1 and keeps the base tempo for a
      centred hand. */
  lemma BpmFactorWithinTenPercent(y01: real)
    requires 0.0 <= y01 <= 1.0
    ensures 0.9 <= BpmFactor(y01) <= 1.1
    ensures BpmFactor(0.0) == 0.9 && BpmFactor(0.5) == 1.0 && BpmFactor(1.0) == 1.1
  {
  }

  /** What `routeHandsToAudio` derives from the dominant hand. `pow` is
      `Math.pow` and `hypot` the length of a velocity vector. */
  function HandControls(dominant: Option<Influence>, pow: (real, real) -> real,
                        hypot: Vec3 -> real): (c: Controls)
    ensures 20.0 <= c.cutoff <= 22050.0
    ensures DelayMin <= c.delay <= DelayMax
    ensures 0.0 <= c.feedback <= 0.95
    ensures 90.0 <= c.bpm <= 160.0
  {
    var y01 := Unit(if dominant.Some? then dominant.value.worldPos.y else 0.0);
    var x01 := Unit(if dominant.Some? then dominant.value.worldPos.x else 0.0);
    var v := if dominant.Some? then hypot(dominant.value.velocity) else 0.0;
    DelayBetween(x01);
    Controls(Clamp(LpfMin * pow(LpfMax / LpfMin, y01), 20.0, 22050.0),
             DelayMin + (DelayMax - DelayMin) * x01,
             Clamp(FeedbackBase * (0.7 + 0.3 * Clamp01(v / 140.0)), 0.0, 0.95),
             Clamp(SettingsBpm * BpmFactorAsWritten(y01), 90.0, 160.0))
  }

  lemma DelayBetween(x01: real)
    requires 0.0 <= x01 <= 1.0
    ensures DelayMin <= DelayMin + (DelayMax - DelayMin) * x01 <= DelayMax
  {
  }

  /** The delay time follows the hand's x linearly from `dMin` at the left
      edge to `dMax` at the right; the feedback follows its speed from 0.175
      at rest to 0.25 at 140 units per second and beyond; the tempo follows
      its height with the factor as written, between 0.8 and 1.0 times the
      base, and a centred hand or no hand plays at 0.9 times the base. */
  lemma HandControlsFollowHand(dominant: Option<Influence>, pow: (real, real) -> real,
                               hypot: Vec3 -> real)
    ensures var c := HandControls(dominant, pow, hypot);
            var p := if dominant.Some? then dominant.value.worldPos else Vec3(0.0, 0.0, 0.0);
            && c.delay == DelayMin + (DelayMax - DelayMin) * Unit(p.x)
            && (p.x <= -30.0 ==> c.delay == DelayMin)
            && (p.x >= 30.0 ==> c.delay == DelayMax)
            && 0.175 <= c.feedback <= 0.25
            && (dominant.None? ==> c.feedback == 0.175)
            && (dominant.Some? && hypot(dominant.value.velocity) >= 140.0 ==> c.feedback == 0.25)
            && 100.8 <= c.bpm <= 126.0
            && (p.y == 0.0 ==> c.bpm == 113.4)
  {
    var p := if dominant.Some? then dominant.value.worldPos else Vec3(0.0, 0.0, 0.0);
    BpmFactorAsWrittenOnlySlows(Unit(p.y));
  }

  /** Moving the hand right never shortens the delay. */
  lemma DelayMonotone(x: real, x': real)
    requires x <= x'
    ensures DelayMin + (DelayMax - DelayMin) * Unit(x) <= DelayMin + (DelayMax - DelayMin) * Unit(x')
  {
  }

  // ===================================================================
  // Break overlay pattern
  // ===================================================================

  /** Which drums one overlay step plays (kick, snare, closed hat). */
  datatype Hits = Hits(kick: bool, snare: bool, hat: bool)

  /** One overlay step: its place in the bar, its time and its drums. */
  datatype OverlayStep = OverlayStep(index: int, time: real, hits: Hits)

  /** The overlay pattern for a bar position: four-on-the-floor kick, snare
      on the backbeat, hat on every step. */
  function OverlayHits(s: int): (h: Hits)
    ensures h.hat
    ensures h.snare ==> h.kick
  {
    Hits(s % 4 == 0, s == 4 || s == 12, true)
  }

  /** A bar holds kicks on 0, 4, 8 and 12 and snares on 4 and 12 only. */
  lemma OverlayBar(s: int)
    requires 0 <= s < OverlaySteps
    ensures OverlayHits(s).kick <==> s in {0, 4, 8, 12}
    ensures OverlayHits(s).snare <==> s in {4, 12}
  {
  }

  /** The steps booked from position i0 at time t0: consecutive bar positions
      with no swing, one sixteenth note apart. */
  ghost predicate Overlaid(t0: real, i0: int, dur: real, steps: seq<OverlayStep>)
  {
    forall k :: 0 <= k < |steps| ==>
      steps[k] == OverlayStep((i0 + k) % OverlaySteps, t0 + (k as real) * dur,
                              OverlayHits((i0 + k) % OverlaySteps))
  }

  /** Booked overlay steps come in strictly increasing time, and each index is
      the previous one plus one, wrapping after 15. */
  lemma OverlaidOrdered(t0: real, i0: int, dur: real, steps: seq<OverlayStep>, j: nat)
    requires dur > 0.0 && Overlaid(t0, i0, dur, steps) && j + 1 < |steps|
    ensures steps[j].time < steps[j + 1].time
    ensures steps[j + 1].time - steps[j].time == dur
    ensures steps[j + 1].index == (steps[j].index + 1) % OverlaySteps
  {
    assert (j + 1) as real * dur == (j as real) * dur + dur;
  }

  /** The overlay steps booked so far from (t0, i0), all before `horizon`,
      with the cursor (`time`, `index`) just after the last one. */
  ghost predicate Booked(t0: real, i0: int, dur: real, horizon: real, steps: seq<OverlayStep>,
                         time: real, index: int)
  {
    && 0 <= index < OverlaySteps
    && Overlaid(t0, i0, dur, steps)
    && (forall k :: 0 <= k < |steps| ==> steps[k].time < horizon)
    && time == t0 + (|steps| as real) * dur
    && index == (i0 + |steps|) % OverlaySteps
  }

  /** Booking the step under the cursor and advancing the cursor by one
      sixteenth keeps the booking consistent. */
  lemma BookedNext(t0: real, i0: int, dur: real, horizon: real, steps: seq<OverlayStep>,
                   time: real, index: int)
    requires 0 <= i0 && Booked(t0, i0, dur, horizon, steps, time, index) && time < horizon
    ensures Booked(t0, i0, dur, horizon, steps + [OverlayStep(index, time, OverlayHits(index))],
                   time + dur, (index + 1) % OverlaySteps)
  {
    var n := |steps|;
    OverlaidSnoc(t0, i0, dur, steps);
    assert (n + 1) as real * dur == (n as real) * dur + dur;
    WrapNext(i0 + n);
  }

  /** Appending the step that follows keeps a run of overlay steps regular. */
  lemma OverlaidSnoc(t0: real, i0: int, dur: real, steps: seq<OverlayStep>)
    requires Overlaid(t0, i0, dur, steps)
    ensures var n := |steps|;
      Overlaid(t0, i0, dur, steps + [OverlayStep((i0 + n) % OverlaySteps, t0 + (n as real) * dur,
                                                 OverlayHits((i0 + n) % OverlaySteps))])
  {
    var n := |steps|;
    var steps' := steps + [OverlayStep((i0 + n) % OverlaySteps, t0 + (n as real) * dur,
                                       OverlayHits((i0 + n) % OverlaySteps))];
    forall k | 0 <= k < n + 1
      ensures steps'[k] == OverlayStep((i0 + k) % OverlaySteps, t0 + (k as real) * dur,
                                       OverlayHits((i0 + k) % OverlaySteps))
    {
      if k < n {
        assert steps'[k] == steps[k];
      }
    }
  }

  /** Advancing a bar position by one wraps like advancing the count. */
  lemma WrapNext(a: nat)
    ensures (a % OverlaySteps + 1) % OverlaySteps == (a + 1) % OverlaySteps
  {
    var q := a / OverlaySteps;
    assert a == OverlaySteps * q + a % OverlaySteps;
    if a % OverlaySteps == OverlaySteps - 1 {
      assert a + 1 == OverlaySteps * (q + 1);
    } else {
      assert a + 1 == OverlaySteps * q + (a % OverlaySteps + 1);
    }
  }

  /** The length of one overlay step, from `curBPM || settings.bpm`: a zero
      tempo falls back to the base tempo. */
  function OverlayStepDur(bpm: real): (d: real)
    ensures bpm >= 0.0 ==> d > 0.0
    ensures bpm == 0.0 ==> d == 60.0 / SettingsBpm / 4.0
  {
    60.0 / (if bpm != 0.0 then bpm else SettingsBpm) / 4.0
  }

  // ===================================================================
  // The module state
  // ===================================================================

  /** The state `audio.js` keeps at module level. The nodes exist once
      `ready` (`initAudioAnalysis` has run). */
  class Mixer {
    /** The sequencer `createTechnoEngine` returns. */
    const engine: Techno.Engine
    /** `settings.pumpAmount`. */
    const pumpSetting: Num
    var ready: bool
    var master: Bus
    var engineGain: Bus
    var breakGain: Bus
    var lpf: Bus
    var delayTime: real
    var feedback: real
    var curBpm: real
    var frequencyData: Bands
    var bassFloor: real
    var kickPulse: real
    /** The engine kick envelope behind `__getEngineKick`. */
    var engineKick: real
    var breakActive: bool
    var breakTargetGain: real
    var breakDuckFloor: real
    /** Whether `schedulerTimer` holds a pending tick. */
    var timerArmed: bool
    var nextNoteTime: real
    var step: int

    /** The mixer's own invariant; the sequencer keeps `engine.Valid()`. */
    ghost predicate Valid()
      reads this
    {
      && 0 <= step < OverlaySteps
      && 90.0 <= curBpm <= 160.0
      && 0.0 <= bassFloor <= 1.0
      && 0.0 <= kickPulse <= 1.0
      && 0.0 <= engineKick <= 1.0
      && (breakActive ==> ready)
      && (timerArmed ==> breakActive)
      && LevelsConsistent()
    }

    /** While the break is on, the media and the engine are ramped to their
        duck floor and the overlay to its gain; otherwise, once the nodes
        exist, both mixes are ramped back to their base level and the overlay
        to silence. (The base levels are written out as numbers here,
        `baseMaster` = 1.0 and `baseEngine` = 0.9, which keeps the products
        linear for the solver.) */
    ghost predicate LevelsConsistent()
      reads this
    {
      && (breakActive ==>
            && BreakGainBase <= breakTargetGain <= BreakGainBase + BreakGainSpan
            && DuckFloorMin <= breakDuckFloor <= DuckFloorMax
            && master.target == 1.0 * breakDuckFloor
            && engineGain.target == 0.9 * breakDuckFloor
            && breakGain.target == breakTargetGain)
      && (ready && !breakActive ==>
            && master.target == BaseMaster && engineGain.target == BaseEngine
            && breakGain.target == 0.0)
    }

    /** The state at module load. */
    constructor ()
      ensures Valid() && engine.Valid() && fresh(engine) && !engine.isRunning
      ensures pumpSetting == Finite(Techno.PumpAmount) && !ready
      ensures curBpm == SettingsBpm && !breakActive && !timerArmed
      ensures breakTargetGain == 1.8 && breakDuckFloor == 0.08
      ensures step == 0 && nextNoteTime == 0.0
      ensures frequencyData == Bands(0.0, 0.0, 0.0, 0.0)
      ensures kickPulse == 0.0 && bassFloor == 0.0 && engineKick == 0.0
    {
      engine := new Techno.Engine();
      pumpSetting := Finite(Techno.PumpAmount);
      ready := false;
      master, engineGain, breakGain, lpf := Steady(BaseMaster), Steady(BaseEngine), Steady(0.0), Steady(LpfMax);
      delayTime, feedback := DelayMin, FeedbackBase;
      curBpm := SettingsBpm;
      frequencyData := Bands(0.0, 0.0, 0.0, 0.0);
      bassFloor, kickPulse, engineKick := 0.0, 0.0, 0.0;
      breakActive, breakTargetGain, breakDuckFloor := false, 1.8, 0.08;
      timerArmed, nextNoteTime, step := false, 0.0, 0;
    }

    /** The node parameters as `initAudioAnalysis` creates them. */
    ghost predicate NodesInitial()
      reads this
    {
      && master == Steady(BaseMaster) && engineGain == Steady(BaseEngine)
      && breakGain == Steady(0.0) && lpf == Steady(LpfMax)
      && delayTime == DelayMin && feedback == FeedbackBase
    }

    /** `initAudioAnalysis`: does nothing once it has run; otherwise creates
        the nodes with their initial values, resets the engine kick envelope
        and starts the sequencer when auto-techno is on and the media element
        is idle (absent, paused, ended or at time zero: `mediaIdle`). */
    method InitAudioAnalysis(now: real, mediaIdle: bool)
      requires Valid() && engine.Valid()
      modifies this`ready, this`master, this`engineGain, this`breakGain, this`lpf
      modifies this`delayTime, this`feedback, this`engineKick, engine
      ensures Valid() && engine.Valid() && ready
      ensures old(ready) ==> unchanged(this) && unchanged(engine)
      ensures !old(ready) ==> NodesInitial() && engineKick == 0.0
      ensures !old(ready) ==> engine.isRunning == (old(engine.isRunning) || (AutoTechno && mediaIdle))
    {
      if ready {
        return;
      }
      CreateNodes();
      if AutoTechno && mediaIdle {
        engine.Start(now);
      }
    }

    /** The node set-up part of `initAudioAnalysis`. */
    method CreateNodes()
      requires Valid() && !ready
      modifies this`ready, this`master, this`engineGain, this`breakGain, this`lpf
      modifies this`delayTime, this`feedback, this`engineKick
      ensures Valid() && ready && NodesInitial() && engineKick == 0.0
    {
      ready := true;
      master, engineGain, breakGain, lpf := Steady(BaseMaster), Steady(BaseEngine), Steady(0.0), Steady(LpfMax);
      delayTime, feedback := DelayMin, FeedbackBase;
      engineKick := 0.0;
    }

    /** The engine's kick callback: the envelope jumps to 1. */
    method OnEngineKick()
      requires Valid()
      modifies this`engineKick
      ensures Valid() && engineKick == 1.0
    {
      engineKick := 1.0;
    }

    /** One tick of the engine's own scheduler timer, once the nodes exist.
        Each kick the tick triggers calls the callback `initAudioAnalysis`
        installs, so the envelope is at 1 after a tick with a kick and as it
        was after one without. */
    method EngineTick(now: real, roll: nat -> Techno.Roll) returns (steps: seq<Techno.Step>)
      requires Valid() && engine.Valid() && ready && engine.isRunning
      modifies engine`stepIndex, engine`nextNoteTime, engine`revSend, engine`duck, this`engineKick
      ensures Valid() && engine.Valid()
      ensures forall k :: 0 <= k < |steps| ==> steps[k].deadline < now + Techno.ScheduleAhead
      ensures Techno.Played(Techno.Emitter(engine.CurrentPreset(), engine.params, engine.calmMode), roll, steps)
      ensures engineKick == (if Techno.KicksIn(steps) then 1.0 else old(engineKick))
      ensures engine.nextNoteTime >= now + Techno.ScheduleAhead
      ensures Techno.Chained(engine.bpm, engine.swing, old(engine.nextNoteTime), old(engine.stepIndex),
                             steps, engine.nextNoteTime, engine.stepIndex)
      ensures engine.duck == Techno.DuckAfterSteps(old(engine.duck), steps)
      ensures engine.revSend == Techno.RevSendAfterSteps(old(engine.revSend), steps)
    {
      steps := engine.Scheduler(now, roll);
      if Techno.KicksIn(steps) {
        OnEngineKick();
      }
    }

    /** `__getEngineKick`: the envelope decays by 0.86 per read and is returned
        clamped to [0, 1]. */
    method ReadEngineKick() returns (k: real)
      requires Valid()
      modifies this`engineKick
      ensures Valid() && engineKick == old(engineKick) * 0.86
      ensures k == engineKick && 0.0 <= k <= old(engineKick)
    {
      engineKick := engineKick * 0.86;
      k := Clamp(engineKick, 0.0, 1.0);
    }

    /** `analyzeAudio` over one frame of bins: the spectrum, the bass floor
        tracker, the kick pulse and, while the break is off, the media pump. */
    method AnalyzeAudio(data: seq<Byte>)
      requires Valid() && |data| > 0
      modifies this`frequencyData, this`bassFloor, this`kickPulse, this`engineKick, this`master
      ensures Valid()
      ensures !ready ==> unchanged(this)
      ensures ready ==>
        && frequencyData == Spectrum(data)
        && bassFloor == Ema(old(bassFloor), frequencyData.bass, 0.12)
        && engineKick == old(engineKick) * 0.86
        && kickPulse == Max(KickFromAudio(frequencyData.bass, bassFloor), engineKick)
        && (breakActive ==> master == old(master))
        && (!breakActive ==> master == old(master).SetValue(PumpedGain(kickPulse, PumpAmount(pumpSetting))))
    {
      if !ready {
        return;
      }
      frequencyData := MeasureSpectrum(data);
      bassFloor := bassFloor + (frequencyData.bass - bassFloor) * 0.12;
      var kickFromAudio := KickFromAudio(frequencyData.bass, bassFloor);
      var kickFromEngine := ReadEngineKick();
      kickPulse := Max(kickFromAudio, kickFromEngine);
      if !breakActive {
        Pump();
      }
    }

    /** The media pump: the master gain dips with the kick pulse. */
    method Pump()
      requires Valid()
      modifies this`master
      ensures Valid() && master == old(master).SetValue(PumpedGain(kickPulse, PumpAmount(pumpSetting)))
    {
      master := master.SetValue(PumpedGain(kickPulse, PumpAmount(pumpSetting)));
    }

    /** `routeHandsToAudio(dominant)`: cutoff, delay time and feedback from
        the dominant hand, and the tempo handed to the sequencer. */
    method RouteHandsToAudio(dominant: Option<Influence>, pow: (real, real) -> real,
                             hypot: Vec3 -> real)
      requires Valid() && engine.Valid()
      modifies this`lpf, this`delayTime, this`feedback, this`curBpm, engine`bpm
      ensures Valid() && engine.Valid()
      ensures !ready ==> unchanged(this) && unchanged(engine)
      ensures ready ==>
        var c := HandControls(dominant, pow, hypot);
        && lpf == old(lpf).SetValue(c.cutoff) && delayTime == c.delay
        && feedback == c.feedback && curBpm == c.bpm && engine.bpm == c.bpm
    {
      if !ready {
        return;
      }
      var c := HandControls(dominant, pow, hypot);
      lpf := lpf.SetValue(c.cutoff);
      delayTime := c.delay;
      feedback := c.feedback;
      engine.SetBPM(c.bpm);
      curBpm := c.bpm;
    }

    /** `scheduleNextSteps`: while the break is on, books every overlay step
        that starts before `now + scheduleAheadTime`. */
    method ScheduleNextSteps(now: real) returns (steps: seq<OverlayStep>)
      requires Valid()
      modifies this`step, this`nextNoteTime
      ensures Valid()
      ensures !breakActive ==> steps == [] && unchanged(this)
      ensures breakActive ==>
        && Booked(old(nextNoteTime), old(step), OverlayStepDur(curBpm), now + ScheduleAheadTime,
                  steps, nextNoteTime, step)
        && nextNoteTime >= now + ScheduleAheadTime
    {
      steps := [];
      if !breakActive {
        return;
      }
      var dur := OverlayStepDur(curBpm);
      var horizon := now + ScheduleAheadTime;
      while nextNoteTime < horizon
        invariant Valid()
        invariant Booked(old(nextNoteTime), old(step), dur, horizon, steps, nextNoteTime, step)
        decreases StepsLeft(nextNoteTime, horizon, dur)
      {
        var st := BookStep(old(nextNoteTime), old(step), dur, horizon, steps);
        steps := steps + [st];
      }
    }

    /** One pass of the `scheduleNextSteps` loop: the drums of the step under
        the cursor, then the cursor one sixteenth on. */
    method BookStep(ghost t0: real, ghost i0: int, dur: real, ghost horizon: real,
                    ghost steps: seq<OverlayStep>) returns (st: OverlayStep)
      requires Valid() && 0 <= i0 && dur > 0.0 && nextNoteTime < horizon
      requires Booked(t0, i0, dur, horizon, steps, nextNoteTime, step)
      modifies this`step, this`nextNoteTime
      ensures Valid() && Booked(t0, i0, dur, horizon, steps + [st], nextNoteTime, step)
      ensures StepsLeft(nextNoteTime, horizon, dur) < StepsLeft(old(nextNoteTime), horizon, dur)
    {
      var s := step % OverlaySteps;
      assert s == step;
      BookedNext(t0, i0, dur, horizon, steps, nextNoteTime, step);
      StepsLeftDecreases(nextNoteTime, horizon, dur);
      st := OverlayStep(s, nextNoteTime, OverlayHits(s));
      step := (step + 1) % OverlaySteps;  // `(step + 1) & 15` on [0, 16)
      nextNoteTime := nextNoteTime + dur;
    }

    /** `schedulerTick`: clears the timer once the break is off; otherwise
        books the next overlay steps and re-arms the timer. */
    method SchedulerTick(now: real) returns (steps: seq<OverlayStep>)
      requires Valid()
      modifies this`step, this`nextNoteTime, this`timerArmed
      ensures Valid()
      ensures !breakActive ==>
        && !timerArmed && steps == [] && step == old(step) && nextNoteTime == old(nextNoteTime)
      ensures breakActive ==>
        && timerArmed
        && Booked(old(nextNoteTime), old(step), OverlayStepDur(curBpm), now + ScheduleAheadTime,
                  steps, nextNoteTime, step)
        && nextNoteTime >= now + ScheduleAheadTime
    {
      if !breakActive {
        timerArmed := false;
        steps := [];
        return;
      }
      steps := ScheduleNextSteps(now);
      timerArmed := true;
    }

    /** The levels `holdBreak` records for a strength at time `now`. */
    twostate predicate Held(strength: real, now: real)
      reads this
    {
      && breakTargetGain == BreakTargetGain(strength)
      && breakDuckFloor == BreakDuckFloor(strength)
      && breakGain == old(breakGain).RampTo(BreakTargetGain(strength), now + 0.08)
      && master == old(master).RampTo(BaseMaster * BreakDuckFloor(strength), now + 0.08)
      && engineGain == old(engineGain).RampTo(BaseEngine * BreakDuckFloor(strength), now + 0.08)
    }

    /** `holdBreak(strength)`: while the break is on, follows the gesture
        strength with the overlay gain and the duck floor; otherwise does
        nothing. */
    method HoldBreak(strength: real, now: real)
      requires Valid()
      modifies this`breakTargetGain, this`breakDuckFloor, this`breakGain, this`master, this`engineGain
      ensures Valid()
      ensures !(ready && breakActive) ==> unchanged(this)
      ensures ready && breakActive ==> Held(strength, now)
    {
      if !ready || !breakActive {
        return;
      }
      breakTargetGain := BreakTargetGain(strength);
      breakDuckFloor := BreakDuckFloor(strength);
      var t := now;
      breakGain := breakGain.RampTo(breakTargetGain, t + 0.08);
      master := master.RampTo(BaseMaster * breakDuckFloor, t + 0.08);
      engineGain := engineGain.RampTo(BaseEngine * breakDuckFloor, t + 0.08);
    }

    /** What `startBreak` does from Idle before its first scheduler tick, at
        `t = now + 0.01`: duck the media and the engine, bring in the overlay,
        open the low-pass filter to 16 kHz from its current value, and put the
        overlay cursor on the downbeat 50 ms later. */
    twostate predicate Entered(strength: real, now: real)
      reads this
    {
      var t := now + 0.01;
      && breakTargetGain == BreakTargetGain(strength)
      && breakDuckFloor == BreakDuckFloor(strength)
      && master == old(master).RampTo(BaseMaster * BreakDuckFloor(strength), t + 0.08)
      && engineGain == old(engineGain).RampTo(BaseEngine * BreakDuckFloor(strength), t + 0.08)
      && breakGain == old(breakGain).RampTo(BreakTargetGain(strength), t + 0.10)
      && lpf == old(lpf).RampTo(16000.0, t + 0.08)
      && step == 0 && nextNoteTime == t + 0.05
    }

    method EnterBreak(strength: real, now: real)
      requires Valid() && ready && !breakActive
      modifies this`breakActive, this`breakTargetGain, this`breakDuckFloor, this`master
      modifies this`engineGain, this`breakGain, this`lpf, this`step, this`nextNoteTime
      ensures Valid() && breakActive && !timerArmed && Entered(strength, now)
    {
      breakActive := true;
      breakTargetGain := BreakTargetGain(strength);
      breakDuckFloor := BreakDuckFloor(strength);
      var t := now + 0.01;
      master := master.RampTo(BaseMaster * breakDuckFloor, t + 0.08);
      engineGain := engineGain.RampTo(BaseEngine * breakDuckFloor, t + 0.08);
      breakGain := breakGain.RampTo(breakTargetGain, t + 0.10);
      lpf := lpf.RampTo(16000.0, t + 0.08);
      step := 0;
      nextNoteTime := t + 0.05;
    }

    /** `startBreak(strength)`: makes sure the audio graph exists; while the
        break is already on this is `holdBreak`, and the overlay cursor is not
        reset; from Idle it enters the break and runs the first scheduler tick,
        which books the downbeat and everything else inside the lookahead. */
    method StartBreak(strength: real, now: real, mediaIdle: bool) returns (steps: seq<OverlayStep>)
      requires Valid() && engine.Valid()
      modifies this`ready, this`master, this`engineGain, this`breakGain, this`lpf
      modifies this`delayTime, this`feedback, this`engineKick, engine
      modifies this`breakActive, this`breakTargetGain, this`breakDuckFloor
      modifies this`step, this`nextNoteTime, this`timerArmed
      ensures Valid() && engine.Valid() && ready && breakActive
      ensures old(breakActive) ==>
        && Held(strength, now) && steps == [] && timerArmed == old(timerArmed)
        && unchanged(this`lpf, this`step, this`nextNoteTime, this`delayTime, this`feedback)
        && unchanged(this`engineKick, this`ready) && unchanged(engine)
      ensures !old(breakActive) ==>
        && timerArmed
        && breakTargetGain == BreakTargetGain(strength)
        && breakDuckFloor == BreakDuckFloor(strength)
        && master.target == BaseMaster * breakDuckFloor && master.rampEnd == now + 0.01 + 0.08
        && engineGain.target == BaseEngine * breakDuckFloor && engineGain.rampEnd == now + 0.01 + 0.08
        && breakGain.target == breakTargetGain && breakGain.rampEnd == now + 0.01 + 0.10
        && lpf.target == 16000.0 && lpf.rampEnd == now + 0.01 + 0.08
        && lpf.value == (if old(ready) then old(lpf.value) else LpfMax)
        && master.value == (if old(ready) then old(master.value) else BaseMaster)
        && engineGain.value == (if old(ready) then old(engineGain.value) else BaseEngine)
        && breakGain.value == (if old(ready) then old(breakGain.value) else 0.0)
        && Booked(now + 0.01 + 0.05, 0, OverlayStepDur(curBpm), now + ScheduleAheadTime,
                  steps, nextNoteTime, step)
        && nextNoteTime >= now + ScheduleAheadTime
        && |steps| > 0 && steps[0] == OverlayStep(0, now + 0.06, Hits(true, false, true))
      ensures old(ready) ==> unchanged(this`delayTime, this`feedback, this`engineKick) && unchanged(engine)
      ensures !old(ready) ==>
        && delayTime == DelayMin && feedback == FeedbackBase && engineKick == 0.0
        && engine.isRunning == (old(engine.isRunning) || (AutoTechno && mediaIdle))
    {
      if !ready {
        InitAudioAnalysis(now, mediaIdle);
      }
      if breakActive {
        HoldBreak(strength, now);
        steps := [];
        return;
      }
      EnterBreak(strength, now);
      // The crash cymbal the break opens with is a synth voice and is not modelled.
      if !timerArmed {
        steps := SchedulerTick(now);
      } else {
        steps := [];
      }
    }

    /** `endBreak`: while the break is on, turns it off, brings the media and
        the engine back to exactly their base levels, fades the overlay out
        and clears the timer; otherwise does nothing. */
    method EndBreak(now: real)
      requires Valid()
      modifies this`breakActive, this`master, this`engineGain, this`breakGain, this`timerArmed
      ensures Valid()
      ensures !old(ready && breakActive) ==> unchanged(this)
      ensures old(ready && breakActive) ==>
        && !breakActive && !timerArmed
        && master == old(master).RampTo(BaseMaster, now + 0.01 + 0.18)
        && engineGain == old(engineGain).RampTo(BaseEngine, now + 0.01 + 0.18)
        && breakGain == old(breakGain).RampTo(0.0, now + 0.01 + 0.15)
    {
      if !ready || !breakActive {
        return;
      }
      breakActive := false;
      var t := now + 0.01;
      master := master.RampTo(BaseMaster, t + 0.18);
      engineGain := engineGain.RampTo(BaseEngine, t + 0.18);
      breakGain := breakGain.RampTo(0.0, t + 0.15);
      if timerArmed {
        timerArmed := false;
      }
    }
  }
}
