/** The procedural techno sequencer: a 16-step lookahead scheduler with swing,
    the instrument patterns and presets, pitch quantisation to a minor scale,
    the kick's sidechain duck and the Stopped/Running control API.

    Audio-clock time is a real number of seconds, passed in as `now`. The two
    `Math.random()` draws of a step (timing jitter and the open-hat choice)
    are passed in as a `Roll`. */
module Techno {
  import opened Signal

  const Steps: nat := 16
  /** How far ahead of the audio clock the scheduler commits steps (s). */
  const ScheduleAhead: real := 0.12
  /** Lead-in between `start` and the first step (s). */
  const LeadIn: real := 0.05
  /** `settings.pumpAmount`, read by the kick's duck without `num()`; the
      mixer's pump reads the same setting through `num()`. */
  const PumpAmount: real := 0.15

  /** The pitch every quantisation is relative to, and the minor scale. */
  const Root: int := 36
  const Minor: seq<int> := [0, 2, 3, 5, 7, 8, 10]

  const KickPat: seq<int> := [1,0,0,0, 1,0,0,0, 1,0,0,0, 1,0,0,0]
  const ClapPat: seq<int> := [0,0,0,0, 1,0,0,0, 0,0,0,0, 1,0,0,0]
  const HatPat: seq<int>  := [0,1,0,1, 0,1,0,1, 0,1,0,1, 0,1,0,1]

  // ---------------------------------------------------------------------
  // Pitch quantisation
  // ---------------------------------------------------------------------

  function Abs(x: int): nat { if x < 0 then -x else x }

  /** JavaScript's `%` on integers: the remainder has the sign of the dividend. */
  function JsRem(a: int, b: int): (r: int)
    requires b > 0
    ensures -b < r < b
    ensures a >= 0 ==> r == a % b
    ensures a < 0 ==> r <= 0 && r == -((-a) % b)
  {
    if a >= 0 then a % b else -((-a) % b)
  }

  /** `((off % 12) + 12) % 12` computes the mathematical residue of `off`. */
  lemma {:induction false} DegreeIsResidue(off: int)
    ensures JsRem(JsRem(off, 12) + 12, 12) == off % 12
  {
    if off < 0 {
      var r := (-off) % 12;
      var q := (-off) / 12;
      assert -off == 12 * q + r;
      if r == 0 {
        assert off == 12 * (-q);
        assert off % 12 == 0;
      } else {
        assert off == 12 * (-q - 1) + (12 - r);
        assert off % 12 == 12 - r;
      }
    }
  }

  /** `Math.floor(off / 12)` in floating point is integer floor division. */
  lemma {:induction false} OctaveIsFloorDiv(off: int)
    ensures ((off as real) / 12.0).Floor == off / 12
  {
    var q := off / 12;
    assert 12 * q <= off < 12 * q + 12;
    assert (q as real) <= (off as real) / 12.0 < (q as real) + 1.0;
  }

  /** A scale is a non-empty list of degrees within one octave. */
  predicate IsScale(scale: seq<int>)
  {
    |scale| > 0 && forall j :: 0 <= j < |scale| ==> 0 <= scale[j] < 12
  }

  /** `i` indexes an entry of `scale` nearest to `deg`, and no earlier entry
      is as near: the entry a left-to-right scan with a strict `<` keeps. */
  ghost predicate IsFirstNearest(scale: seq<int>, deg: int, i: int)
  {
    && 0 <= i < |scale|
    && (forall j :: 0 <= j < |scale| ==> Abs(scale[i] - deg) <= Abs(scale[j] - deg))
    && (forall j :: 0 <= j < i ==> Abs(scale[i] - deg) < Abs(scale[j] - deg))
  }

  /** At most one index is the first nearest. */
  lemma FirstNearestUnique(scale: seq<int>, deg: int, i: int, k: int)
    requires IsFirstNearest(scale, deg, i) && IsFirstNearest(scale, deg, k)
    ensures i == k
  {
    assert Abs(scale[i] - deg) <= Abs(scale[k] - deg);
    assert Abs(scale[k] - deg) <= Abs(scale[i] - deg);
  }

  /** The index of the scale entry nearest to `deg`; among equally near
      entries the first in scale order wins. */
  function FirstNearest(scale: seq<int>, deg: int): (i: nat)
    requires |scale| > 0
    ensures IsFirstNearest(scale, deg, i)
    decreases |scale|
  {
    if |scale| == 1 then 0
    else
      var k := FirstNearest(scale[..|scale| - 1], deg);
      NearestExtend(scale, deg, k);
      if Abs(scale[|scale| - 1] - deg) < Abs(scale[k] - deg) then |scale| - 1 else k
  }

  /** One more entry either is strictly nearer than the first nearest of the
      entries before it, and then it is the first nearest, or it is not. */
  lemma NearestExtend(scale: seq<int>, deg: int, k: int)
    requires |scale| > 1 && IsFirstNearest(scale[..|scale| - 1], deg, k)
    ensures IsFirstNearest(scale, deg, if Abs(scale[|scale| - 1] - deg) < Abs(scale[k] - deg) then |scale| - 1 else k)
  {
    var init := scale[..|scale| - 1];
    assert forall j :: 0 <= j < |init| ==> init[j] == scale[j];
  }

  /** The quantised pitch: root, plus the pitch's whole octaves above it,
      plus the scale degree nearest to the pitch's own degree. */
  function Quantize(m: int, scale: seq<int>, root: int): int
    requires |scale| > 0
  {
    root + 12 * ((m - root) / 12) + scale[FirstNearest(scale, (m - root) % 12)]
  }

  /** The scan inside `quantizeMidi`: the first scale entry nearest to `deg`. */
  method NearestDegree(scale: seq<int>, deg: int) returns (nearest: int)
    requires IsScale(scale) && 0 <= deg < 12
    ensures nearest == scale[FirstNearest(scale, deg)]
  {
    var best := 99;
    nearest := scale[0];
    ghost var k := 0;
    for i := 0 to |scale|
      invariant i == 0 ==> nearest == scale[0] && best == 99
      invariant i > 0 ==> IsFirstNearest(scale[..i], deg, k)
      invariant i > 0 ==> nearest == scale[k] && best == Abs(nearest - deg)
    {
      var diff := Abs(scale[i] - deg);
      if diff < best {
        best, nearest := diff, scale[i];
        k := i;
      }
    }
    assert scale[..|scale|] == scale;
    FirstNearestUnique(scale, deg, k, FirstNearest(scale, deg));
  }

  /** `quantizeMidi(m, scale, root)`. */
  method QuantizeMidi(m: int, scale: seq<int>, root: int) returns (q: int)
    requires IsScale(scale)
    ensures q == Quantize(m, scale, root)
  {
    var off := m - root;
    var oct := ((off as real) / 12.0).Floor;
    var deg := JsRem(JsRem(off, 12) + 12, 12);
    DegreeIsResidue(off);
    OctaveIsFloorDiv(off);
    var nearest := NearestDegree(scale, deg);
    q := root + oct * 12 + nearest;
  }

  /** The minor-scale degree each residue 0..11 is pulled to. */
  const NearestMinor: seq<int> := [0, 0, 2, 3, 3, 5, 5, 7, 8, 8, 10, 10]

  /** Quantisation with the defaults the sequencer uses (minor scale, root
      36), stated independently of the scan: the pitch keeps its octave and
      its degree is replaced from the table. */
  function Quantized(m: int): int
  {
    m - (m - Root) % 12 + NearestMinor[(m - Root) % 12]
  }

  /** The table is what the scan computes: at a tie (residues 1, 4, 6 and 9)
      the lower degree wins because it comes first in the scale. */
  lemma NearestTable(d: int)
    requires 0 <= d < 12
    ensures Minor[FirstNearest(Minor, d)] == NearestMinor[d]
  {
    var k := NearestIndex(d);
    FirstNearestUnique(Minor, d, k, FirstNearest(Minor, d));
  }

  /** The index in the scale of each table entry, and it is the first
      nearest one. */
  lemma NearestIndex(d: int) returns (k: int)
    requires 0 <= d < 12
    ensures IsFirstNearest(Minor, d, k) && Minor[k] == NearestMinor[d]
  {
    k := [0, 0, 1, 2, 2, 3, 3, 4, 5, 5, 6, 6][d];
    assert Minor == [0, 2, 3, 5, 7, 8, 10];
  }

  /** The scan with the default scale and root agrees with the table. */
  lemma {:induction false} QuantizeIsTable(m: int)
    ensures Quantize(m, Minor, Root) == Quantized(m)
  {
    MinorQuantize(m);
    DivMod12(m - Root);
  }

  lemma DivMod12(x: int)
    ensures x == 12 * (x / 12) + x % 12
  {
  }

  /** The scan on the minor scale picks the table's degree. */
  lemma MinorQuantize(m: int)
    ensures Quantize(m, Minor, Root) == Root + 12 * ((m - Root) / 12) + NearestMinor[(m - Root) % 12]
  {
    var k := NearestIndex((m - Root) % 12);
    QuantizeAt(m, Minor, Root, k);
  }

  /** The quantised pitch through any index known to be the first nearest. */
  lemma QuantizeAt(m: int, scale: seq<int>, root: int, k: int)
    requires |scale| > 0 && IsFirstNearest(scale, (m - root) % 12, k)
    ensures Quantize(m, scale, root) == root + 12 * ((m - root) / 12) + scale[k]
  {
    FirstNearestUnique(scale, (m - root) % 12, k, FirstNearest(scale, (m - root) % 12));
  }

  /** At a tie the lower neighbour wins: a pitch whose degree lies halfway
      between two minor-scale degrees (1, 4, 6 or 9 semitones above the root,
      as 40 is) goes down a semitone. */
  lemma QuantizeTie(m: int)
    requires var d := (m - Root) % 12; d == 1 || d == 4 || d == 6 || d == 9
    ensures Quantized(m) == m - 1
  {
  }

  /** E2 (40) lies halfway between D#2 (39) and F2 (41) and goes to 39. */
  lemma QuantizeForty()
    ensures Quantized(40) == 39
  {
    QuantizeTie(40);
  }

  /** A pitch already on the scale is left where it is. */
  lemma QuantizeFixesScalePitch(m: int)
    requires (m - Root) % 12 in Minor
    ensures Quantized(m) == m
  {
    var d := (m - Root) % 12;
    assert d == 0 || d == 2 || d == 3 || d == 5 || d == 7 || d == 8 || d == 10;
  }

  /** Quantising never moves a pitch up and moves it down by at most a
      semitone, and the result is on the scale. */
  lemma QuantizeRoundsDown(m: int)
    ensures m - 1 <= Quantized(m) <= m
    ensures (Quantized(m) - Root) % 12 in Minor
  {
    var d := (m - Root) % 12;
    TableEntry(d);
    var o := (m - Root) / 12;
    assert m - Root == 12 * o + d;
    assert Quantized(m) - Root == 12 * o + NearestMinor[d];
    ResidueOf(o, NearestMinor[d]);
  }

  lemma TableEntry(e: int)
    requires 0 <= e < 12
    ensures e - 1 <= NearestMinor[e] <= e && NearestMinor[e] in Minor
  {
  }

  lemma ResidueOf(o: int, v: int)
    requires 0 <= v < 12
    ensures (12 * o + v) % 12 == v
  {
  }

  /** Quantising twice is the same as quantising once. */
  lemma QuantizeIdempotent(m: int)
    ensures Quantized(Quantized(m)) == Quantized(m)
  {
    QuantizeRoundsDown(m);
    QuantizeFixesScalePitch(Quantized(m));
  }

  // ---------------------------------------------------------------------
  // Chords, the kick's duck, swing timing
  // ---------------------------------------------------------------------

  /** `chordToMidis(root, type)`: a root-position triad (minor or major third
      over the root, fifth on top). */
  function ChordToMidis(root: int, minor: bool): (notes: seq<int>)
    ensures |notes| == 3 && notes[0] == root && notes[2] == root + 7
    ensures notes[1] - root == (if minor then 3 else 4)
  {
    if minor then [root, root + 3, root + 7] else [root, root + 4, root + 7]
  }

  /** The floor the music bus is ducked to on every kick: barely audible in
      calm mode, otherwise set by the pump amount within [0.2, 0.7]. */
  function KickDuckFloor(calm: bool, pumpAmount: real): (floor: real)
    ensures 0.2 <= floor <= 0.92
    ensures calm ==> floor == 0.92
    ensures !calm ==> 0.2 <= floor <= 0.7
    ensures !calm && -0.15 <= pumpAmount <= 0.35 ==> floor == 0.55 - pumpAmount
    ensures !calm && pumpAmount >= 0.35 ==> floor == 0.2
    ensures !calm && pumpAmount <= -0.15 ==> floor == 0.7
  {
    if calm then 0.92 else Max(0.2, Min(0.7, 0.55 - pumpAmount))
  }

  /** How long the duck takes to release back to unity (s). */
  function KickRelease(calm: bool): real
  {
    if calm then 0.18 else 0.22
  }

  /** `secondsPerStep()`: a sixteenth note, lengthened on odd steps and
      shortened on even steps by the swing ratio. */
  function StepDuration(bpm: real, swing: real, idx: int): real
    requires bpm > 0.0
  {
    var sp16 := 60.0 / bpm / 4.0;
    if idx % 2 == 1 then sp16 * (1.0 + swing) else sp16 * (1.0 - swing)
  }

  /** Swing is mean-preserving: an even step and the odd step after it last
      exactly two sixteenths. */
  lemma {:induction false} SwingPairSum(bpm: real, swing: real, k: int)
    requires bpm > 0.0
    ensures StepDuration(bpm, swing, 2 * k) + StepDuration(bpm, swing, 2 * k + 1)
         == 2.0 * (60.0 / bpm / 4.0)
  {
    assert (2 * k) % 2 == 0 && (2 * k + 1) % 2 == 1;
  }

  /** For any tempo and swing the setters accept, a step lasts at least 60 ms
      and at most 300 ms. */
  lemma {:induction false} StepDurationBounds(bpm: real, swing: real, idx: int)
    requires 60.0 <= bpm <= 200.0 && 0.0 <= swing <= 0.2
    ensures 0.06 <= StepDuration(bpm, swing, idx) <= 0.3
  {
    var sp16 := 60.0 / bpm / 4.0;
    assert sp16 * bpm == 15.0;
    assert sp16 > 0.0;
    assert sp16 * 60.0 <= sp16 * bpm <= sp16 * 200.0;
    assert 0.075 <= sp16 <= 0.25;
    assert sp16 * 0.8 <= sp16 * (1.0 - swing) && sp16 * (1.0 + swing) <= sp16 * 1.2;
  }

  // ---------------------------------------------------------------------
  // Presets and parameters
  // ---------------------------------------------------------------------

  /** The five synthesis parameters a preset copies into the engine. */
  datatype Params = Params(hatDensity: real, openHatChance: real, clapLevel: real,
                           bassCutoff: real, bassVel: real)

  /** The argument of `setParams`: a field left out is `None`. */
  datatype ParamUpdate = ParamUpdate(hatDensity: Option<real>, openHatChance: Option<real>,
                                     clapLevel: Option<real>, bassCutoff: Option<real>,
                                     bassVel: Option<real>)

  datatype Preset = Preset(params: Params, bassPat: seq<int>, chordRoots: seq<int>,
                           chordEvery: int, jitterMs: real)

  /** Each field's own range. */
  ghost predicate ParamsInRange(p: Params)
  {
    && 0.0 <= p.hatDensity <= 1.0
    && 0.0 <= p.openHatChance <= 1.0
    && 0.0 <= p.clapLevel <= 1.5
    && 120.0 <= p.bassCutoff <= 3000.0
    && 0.05 <= p.bassVel <= 0.6
  }

  function ClampField(cur: real, next: Option<real>, lo: real, hi: real): real
  {
    match next
    case Some(v) => Clamp(v, lo, hi)
    case None => cur
  }

  /** One guarded assignment of `setParams`: a supplied value is clamped
      into its range, a missing one keeps the current value. */
  method UpdateField(cur: real, next: Option<real>, lo: real, hi: real) returns (v: real)
    requires lo <= hi
    ensures v == ClampField(cur, next, lo, hi)
  {
    v := cur;
    if next.Some? {
      v := Max(lo, Min(hi, next.value));
    }
  }

  /** `setParams(next)`: every supplied field is clamped to its own range,
      every absent field keeps its value. */
  function ApplyUpdate(p: Params, u: ParamUpdate): (r: Params)
    ensures u.hatDensity.None? ==> r.hatDensity == p.hatDensity
    ensures u.openHatChance.None? ==> r.openHatChance == p.openHatChance
    ensures u.clapLevel.None? ==> r.clapLevel == p.clapLevel
    ensures u.bassCutoff.None? ==> r.bassCutoff == p.bassCutoff
    ensures u.bassVel.None? ==> r.bassVel == p.bassVel
    ensures u.hatDensity.Some? ==> 0.0 <= r.hatDensity <= 1.0
    ensures u.openHatChance.Some? ==> 0.0 <= r.openHatChance <= 1.0
    ensures u.clapLevel.Some? ==> 0.0 <= r.clapLevel <= 1.5
    ensures u.bassCutoff.Some? ==> 120.0 <= r.bassCutoff <= 3000.0
    ensures u.bassVel.Some? ==> 0.05 <= r.bassVel <= 0.6
    ensures u.hatDensity.Some? ==> r.hatDensity == Clamp(u.hatDensity.value, 0.0, 1.0)
    ensures u.openHatChance.Some? ==> r.openHatChance == Clamp(u.openHatChance.value, 0.0, 1.0)
    ensures u.clapLevel.Some? ==> r.clapLevel == Clamp(u.clapLevel.value, 0.0, 1.5)
    ensures u.bassCutoff.Some? ==> r.bassCutoff == Clamp(u.bassCutoff.value, 120.0, 3000.0)
    ensures u.bassVel.Some? ==> r.bassVel == Clamp(u.bassVel.value, 0.05, 0.6)
  {
    Params(ClampField(p.hatDensity, u.hatDensity, 0.0, 1.0),
           ClampField(p.openHatChance, u.openHatChance, 0.0, 1.0),
           ClampField(p.clapLevel, u.clapLevel, 0.0, 1.5),
           ClampField(p.bassCutoff, u.bassCutoff, 120.0, 3000.0),
           ClampField(p.bassVel, u.bassVel, 0.05, 0.6))
  }

  /** Parameters in range stay in range, and a supplied value already in its
      range is taken as it is. */
  lemma {:induction false} ApplyUpdateKeepsRange(p: Params, u: ParamUpdate)
    requires ParamsInRange(p)
    ensures ParamsInRange(ApplyUpdate(p, u))
    ensures u.hatDensity.Some? && 0.0 <= u.hatDensity.value <= 1.0 ==>
      ApplyUpdate(p, u).hatDensity == u.hatDensity.value
    ensures u.openHatChance.Some? && 0.0 <= u.openHatChance.value <= 1.0 ==>
      ApplyUpdate(p, u).openHatChance == u.openHatChance.value
    ensures u.clapLevel.Some? && 0.0 <= u.clapLevel.value <= 1.5 ==>
      ApplyUpdate(p, u).clapLevel == u.clapLevel.value
    ensures u.bassCutoff.Some? && 120.0 <= u.bassCutoff.value <= 3000.0 ==>
      ApplyUpdate(p, u).bassCutoff == u.bassCutoff.value
    ensures u.bassVel.Some? && 0.05 <= u.bassVel.value <= 0.6 ==>
      ApplyUpdate(p, u).bassVel == u.bassVel.value
  {
  }

  /** Applying the same update twice changes nothing the first did not. */
  lemma {:induction false} ApplyUpdateIdempotent(p: Params, u: ParamUpdate)
    ensures ApplyUpdate(ApplyUpdate(p, u), u) == ApplyUpdate(p, u)
  {
  }

  /** The update `setPreset` and `start` pass: all five fields supplied. */
  function Supplied(p: Params): ParamUpdate
  {
    ParamUpdate(Some(p.hatDensity), Some(p.openHatChance), Some(p.clapLevel),
                Some(p.bassCutoff), Some(p.bassVel))
  }

  const DefaultParams: Params := Params(1.0, 0.15, 1.0, 380.0, 0.22)

  /** The keys of `PRESETS`. */
  datatype PresetName = DeepChill | FrenchTouch1998 | LoFiHouse | PeakTimeTechno

  /** `PRESETS[n]`. */
  function PresetOf(n: PresetName): Preset
  {
    match n
    case DeepChill => Preset(
      Params(0.55, 0.06, 0.65, 320.0, 0.14),
      [36,0,43,0, 36,0,41,0, 36,0,43,0, 36,0,41,0],
      [36,36,36,36, 33,33,33,33, 31,31,31,31, 33,33,33,33],
      4, 0.004)
    case FrenchTouch1998 => Preset(
      Params(0.95, 0.10, 1.2, 520.0, 0.24),
      [36,36,43,36, 36,36,43,36, 36,36,43,36, 36,36,43,36],
      [36,36,36,36, 36,36,36,36, 34,34,34,34, 36,36,36,36],
      4, 0.003)
    case LoFiHouse => Preset(
      Params(0.8, 0.2, 1.0, 420.0, 0.20),
      [36,0,43,0, 36,0,41,0, 36,0,43,0, 36,0,41,0],
      [36,36,36,36, 35,35,35,35, 33,33,33,33, 36,36,36,36],
      2, 0.006)
    case PeakTimeTechno => Preset(
      Params(1.0, 0.08, 1.3, 680.0, 0.28),
      [36,36,43,36, 38,36,45,36, 41,36,43,36, 38,36,45,36],
      [36,36,36,36, 38,38,38,38, 41,41,41,41, 38,38,38,38],
      2, 0.002)
  }

  /** The key a preset name string denotes, if it is one of them. */
  function PresetNamed(name: string): (r: Option<PresetName>)
    ensures r == Some(DeepChill) <==> name == "DeepChill"
    ensures r == Some(FrenchTouch1998) <==> name == "FrenchTouch1998"
    ensures r == Some(LoFiHouse) <==> name == "LoFiHouse"
    ensures r == Some(PeakTimeTechno) <==> name == "PeakTimeTechno"
  {
    if name == "DeepChill" then Some(DeepChill)
    else if name == "FrenchTouch1998" then Some(FrenchTouch1998)
    else if name == "LoFiHouse" then Some(LoFiHouse)
    else if name == "PeakTimeTechno" then Some(PeakTimeTechno)
    else None
  }

  /** Every preset's parameters lie in the ranges `setParams` clamps to, so
      selecting a preset copies them exactly; every preset has a positive
      chord period and a full bar of bass notes and chord roots. */
  lemma PresetsWellFormed(n: PresetName, current: Params)
    ensures ParamsInRange(PresetOf(n).params)
    ensures ApplyUpdate(current, Supplied(PresetOf(n).params)) == PresetOf(n).params
    ensures PresetOf(n).chordEvery > 0
    ensures |PresetOf(n).bassPat| == Steps && |PresetOf(n).chordRoots| == Steps
  {
  }

  // ---------------------------------------------------------------------
  // What one step emits
  // ---------------------------------------------------------------------

  /** The voices a step can trigger. Synthesis recipes are not modelled; each
      voice carries the values the step hands to its recipe. */
  datatype Voice =
    | Kick(duckFloor: real, duckRelease: real)
    | Clap
    | Hat(open: bool, density: real)
    | Bass(midi: int, velocity: real, cutoff: real)
    | Chord(low: int, high: int, velocity: real)

  datatype Note = Note(time: real, voice: Voice)

  /** The two `Math.random()` draws of a step, each in [0,1). */
  datatype Roll = Roll(jitter: real, openHat: real)

  /** `jitterTime(t, amplitude)`. */
  function Jittered(t: real, u: real, amplitude: real): real
  {
    t + (u * 2.0 - 1.0) * amplitude
  }

  lemma {:induction false} JitterBounded(t: real, u: real, amplitude: real)
    requires 0.0 <= u < 1.0 && amplitude >= 0.0
    ensures t - amplitude <= Jittered(t, u, amplitude) <= t + amplitude
  {
    var w := u * 2.0 - 1.0;
    assert -1.0 <= w <= 1.0;
    assert -amplitude <= w * amplitude <= amplitude by {
      assert (w + 1.0) * amplitude >= 0.0;
      assert (1.0 - w) * amplitude >= 0.0;
    }
  }

  /** `(P.bassPat ?? [])[idx]`, where `undefined` reads as no note. */
  function BassAt(p: Preset, idx: int): int
  {
    if 0 <= idx < |p.bassPat| then p.bassPat[idx] else 0
  }

  /** `(P.chordRoots ?? [])[idx] ?? 36`. */
  function ChordRootAt(p: Preset, idx: int): int
  {
    if 0 <= idx < |p.chordRoots| then p.chordRoots[idx] else 36
  }

  /** A note a step emits only when its rule fires. */
  datatype Cand = Cand(fires: bool, note: Note)

  /** The notes of the candidates whose rule fires, in candidate order. */
  function Fired(c: seq<Cand>): seq<Note>
  {
    if c == [] then [] else (if c[0].fires then [c[0].note] else []) + Fired(c[1..])
  }

  /** The five notes `scheduleStep(time, idx)` may trigger, in its order
      kick, clap, hat, bass, chord, each with the rule that triggers it; all
      sound at the same jittered time. */
  function Candidates(p: Preset, params: Params, calm: bool, idx: int, time: real, roll: Roll): seq<Cand>
    requires 0 <= idx < Steps && p.chordEvery > 0
  {
    var t := Jittered(time, roll.jitter, p.jitterMs);
    var chord := ChordToMidis(ChordRootAt(p, idx), true);
    [ Cand(KickPat[idx] != 0, Note(t, Kick(KickDuckFloor(calm, PumpAmount), KickRelease(calm)))),
      Cand(ClapPat[idx] != 0, Note(t, Clap)),
      Cand(HatPat[idx] != 0, Note(t, Hat(roll.openHat < params.openHatChance, params.hatDensity))),
      Cand(BassAt(p, idx) != 0, Note(t, Bass(Quantized(BassAt(p, idx)), params.bassVel, params.bassCutoff))),
      Cand(idx % p.chordEvery == 0, Note(t, Chord(chord[0], chord[2], if calm then 0.16 else 0.18))) ]
  }

  /** `scheduleStep(time, idx)`: what the step triggers. */
  function StepNotes(p: Preset, params: Params, calm: bool, idx: int, time: real, roll: Roll): seq<Note>
    requires 0 <= idx < Steps && p.chordEvery > 0
  {
    Fired(Candidates(p, params, calm, idx, time, roll))
  }

  function Rank(v: Voice): nat
  {
    match v
    case Kick(_, _) => 0
    case Clap => 1
    case Hat(_, _) => 2
    case Bass(_, _, _) => 3
    case Chord(_, _, _) => 4
  }

  predicate HasVoice(notes: seq<Note>, rank: nat)
  {
    exists k :: 0 <= k < |notes| && Rank(notes[k].voice) == rank
  }

  /** The patterns as arithmetic: kick on every beat, clap on steps 4 and 12,
      hats on the off-sixteenths. */
  lemma PatternsAsArithmetic(idx: int)
    requires 0 <= idx < Steps
    ensures KickPat[idx] != 0 <==> idx % 4 == 0
    ensures ClapPat[idx] != 0 <==> idx == 4 || idx == 12
    ensures HatPat[idx] != 0 <==> idx % 2 == 1
  {
    if idx < 8 {
      if idx < 4 { assert idx == 0 || idx == 1 || idx == 2 || idx == 3; }
      else { assert idx == 4 || idx == 5 || idx == 6 || idx == 7; }
    } else {
      if idx < 12 { assert idx == 8 || idx == 9 || idx == 10 || idx == 11; }
      else { assert idx == 12 || idx == 13 || idx == 14 || idx == 15; }
    }
  }

  /** Filtering candidates whose ranks count up from `base`: every emitted
      note is the note of the candidate of its rank, whose rule fired, and
      ranks strictly increase along the result. */
  lemma {:induction false} FiredFrom(c: seq<Cand>, base: nat)
    requires forall i :: 0 <= i < |c| ==> Rank(c[i].note.voice) == base + i
    ensures forall k :: 0 <= k < |Fired(c)| ==>
      && base <= Rank(Fired(c)[k].voice) < base + |c|
      && c[Rank(Fired(c)[k].voice) - base].fires
      && Fired(c)[k] == c[Rank(Fired(c)[k].voice) - base].note
    ensures forall k, l :: 0 <= k < l < |Fired(c)| ==> Rank(Fired(c)[k].voice) < Rank(Fired(c)[l].voice)
    decreases |c|
  {
    if c != [] {
      var rest := c[1..];
      var head := if c[0].fires then [c[0].note] else [];
      var f := Fired(c);
      assert f == head + Fired(rest);
      FiredFrom(rest, base + 1);
      forall k | |head| <= k < |f|
        ensures f[k] == Fired(rest)[k - |head|]
      {
      }
    }
  }

  /** A candidate whose rule fires is emitted. */
  lemma {:induction false} FiredKeeps(c: seq<Cand>, i: int)
    requires 0 <= i < |c| && c[i].fires
    ensures c[i].note in Fired(c)
    decreases |c|
  {
    var head := if c[0].fires then [c[0].note] else [];
    assert Fired(c) == head + Fired(c[1..]);
    if i > 0 {
      assert c[1..][i - 1] == c[i];
      FiredKeeps(c[1..], i - 1);
    }
  }

  /** Among candidates of ranks 0, 1, 2, ..., a rank is emitted exactly
      when its candidate fires. */
  lemma FiredHas(c: seq<Cand>, r: int)
    requires forall i :: 0 <= i < |c| ==> Rank(c[i].note.voice) == i
    requires 0 <= r < |c|
    ensures HasVoice(Fired(c), r) <==> c[r].fires
  {
    FiredFrom(c, 0);
    if c[r].fires {
      FiredKeeps(c, r);
    }
  }

  /** The candidates of a step carry ranks 0 to 4 in order. */
  lemma CandidateRanks(p: Preset, params: Params, calm: bool, idx: int, time: real, roll: Roll)
    requires 0 <= idx < Steps && p.chordEvery > 0
    ensures var c := Candidates(p, params, calm, idx, time, roll);
      |c| == 5 && forall i :: 0 <= i < |c| ==> Rank(c[i].note.voice) == i
  {
  }

  /** What a step emits: each voice exactly when its rule says, in the fixed
      order kick, clap, hat, bass, chord. */
  lemma {:induction false} StepNotesVoices(p: Preset, params: Params, calm: bool, idx: int, time: real, roll: Roll)
    requires 0 <= idx < Steps && p.chordEvery > 0
    ensures var notes := StepNotes(p, params, calm, idx, time, roll);
      && (HasVoice(notes, 0) <==> KickPat[idx] != 0)
      && (HasVoice(notes, 1) <==> ClapPat[idx] != 0)
      && (HasVoice(notes, 2) <==> HatPat[idx] != 0)
      && (HasVoice(notes, 3) <==> BassAt(p, idx) != 0)
      && (HasVoice(notes, 4) <==> idx % p.chordEvery == 0)
      && (forall k, l :: 0 <= k < l < |notes| ==> Rank(notes[k].voice) < Rank(notes[l].voice))
  {
    var c := Candidates(p, params, calm, idx, time, roll);
    CandidateRanks(p, params, calm, idx, time, roll);
    FiredFrom(c, 0);
    FiredHas(c, 0);
    FiredHas(c, 1);
    FiredHas(c, 2);
    FiredHas(c, 3);
    FiredHas(c, 4);
  }

  /** A note as a step may emit it: at time `t`; a kick with the floor and
      release of the mode; a bass note at `bass` with the parameters'
      velocity and cutoff; a chord from `root` to its fifth at the mode's
      velocity; a hat with the parameters' density, open exactly when `open`. */
  ghost predicate NoteAgrees(n: Note, t: real, bass: int, root: int, open: bool, params: Params, calm: bool)
  {
    && n.time == t
    && (n.voice.Kick? ==>
          n.voice.duckFloor == KickDuckFloor(calm, PumpAmount) && n.voice.duckRelease == KickRelease(calm))
    && (n.voice.Hat? ==> n.voice.open == open && n.voice.density == params.hatDensity)
    && (n.voice.Bass? ==>
          n.voice.midi == bass && n.voice.velocity == params.bassVel && n.voice.cutoff == params.bassCutoff)
    && (n.voice.Chord? ==>
          n.voice.low == root && n.voice.high == root + 7 && n.voice.velocity == (if calm then 0.16 else 0.18))
  }

  /** Every note of a step sounds at one time within the preset's jitter of
      the deadline; the kick ducks to the mode's floor; the bass is the
      quantised pattern pitch at the current velocity and cutoff; the chord
      spans root to fifth at the mode's velocity; a hat carries the current
      density and is open exactly when the draw falls under the open-hat
      chance. */
  lemma {:induction false} StepNotesContents(p: Preset, params: Params, calm: bool, idx: int, time: real, roll: Roll)
    requires 0 <= idx < Steps && p.chordEvery > 0
    ensures forall n :: n in StepNotes(p, params, calm, idx, time, roll) ==>
      NoteAgrees(n, Jittered(time, roll.jitter, p.jitterMs), Quantized(BassAt(p, idx)),
                 ChordRootAt(p, idx), roll.openHat < params.openHatChance, params, calm)
  {
    var c := Candidates(p, params, calm, idx, time, roll);
    var notes := Fired(c);
    CandidateRanks(p, params, calm, idx, time, roll);
    FiredFrom(c, 0);
    forall i | 0 <= i < |c|
      ensures NoteAgrees(c[i].note, Jittered(time, roll.jitter, p.jitterMs), Quantized(BassAt(p, idx)),
                         ChordRootAt(p, idx), roll.openHat < params.openHatChance, params, calm)
    {
    }
    forall n | n in notes
      ensures NoteAgrees(n, Jittered(time, roll.jitter, p.jitterMs), Quantized(BassAt(p, idx)),
                         ChordRootAt(p, idx), roll.openHat < params.openHatChance, params, calm)
    {
      var k :| 0 <= k < |notes| && notes[k] == n;
      assert n == c[Rank(notes[k].voice)].note;
    }
  }

  /** One emitted step of the scheduler: its index, its deadline and its notes. */
  datatype Step = Step(index: int, deadline: real, notes: seq<Note>)

  /** The duck after one step: a step whose first note is a kick anchors the
      bus at the kick's floor and ramps it back to unity over its release;
      any other step leaves it as it was. */
  function KickDuck(duck: Bus, notes: seq<Note>): Bus
  {
    if |notes| > 0 && notes[0].voice.Kick? then
      Bus(notes[0].voice.duckFloor, 1.0, notes[0].time + notes[0].voice.duckRelease)
    else duck
  }

  /** The duck after `scheduleStep(time, idx)`: a kick step anchors it at the
      kick's floor at the step's jittered time and ramps it back to unity. */
  function StepDuck(p: Preset, calm: bool, idx: int, time: real, roll: Roll, duck: Bus): Bus
    requires 0 <= idx < Steps
  {
    if KickPat[idx] != 0 then
      Bus(KickDuckFloor(calm, PumpAmount), 1.0, Jittered(time, roll.jitter, p.jitterMs) + KickRelease(calm))
    else duck
  }

  /** The duck a step leaves is read off its notes: only a kick moves it. */
  lemma {:induction false} StepDuckFromNotes(p: Preset, params: Params, calm: bool, idx: int, time: real, roll: Roll, duck: Bus)
    requires 0 <= idx < Steps && p.chordEvery > 0
    ensures KickDuck(duck, StepNotes(p, params, calm, idx, time, roll)) == StepDuck(p, calm, idx, time, roll, duck)
  {
    var notes := StepNotes(p, params, calm, idx, time, roll);
    StepNotesVoices(p, params, calm, idx, time, roll);
    if KickPat[idx] == 0 && |notes| > 0 {
      assert !HasVoice(notes, 0);
      assert Rank(notes[0].voice) != 0;
    }
  }

  function DuckAfterSteps(duck: Bus, steps: seq<Step>): Bus
    decreases |steps|
  {
    if steps == [] then duck
    else KickDuck(DuckAfterSteps(duck, steps[..|steps| - 1]), steps[|steps| - 1].notes)
  }

  /** The reverb send after the claps among `steps`: each clap raises it by
      0.03, to at most 0.22. */
  function RevSendAfterSteps(rev: real, steps: seq<Step>): real
    decreases |steps|
  {
    if steps == [] then rev
    else
      var r := RevSendAfterSteps(rev, steps[..|steps| - 1]);
      var idx := steps[|steps| - 1].index;
      if 0 <= idx < Steps && ClapPat[idx] != 0 then Min(0.22, r + 0.03) else r
  }

  lemma RevSendSnoc(rev: real, steps: seq<Step>, st: Step)
    ensures RevSendAfterSteps(rev, steps + [st]) ==
      (if 0 <= st.index < Steps && ClapPat[st.index] != 0 then Min(0.22, RevSendAfterSteps(rev, steps) + 0.03)
       else RevSendAfterSteps(rev, steps))
  {
    assert (steps + [st])[..|steps|] == steps;
  }

  lemma DuckSnoc(duck: Bus, steps: seq<Step>, st: Step)
    ensures DuckAfterSteps(duck, steps + [st]) == KickDuck(DuckAfterSteps(duck, steps), st.notes)
  {
    assert (steps + [st])[..|steps|] == steps;
  }

  /** The send level never falls and never passes the larger of where it
      started and 0.22. */
  lemma {:induction false} RevSendBounded(rev: real, steps: seq<Step>)
    ensures rev <= RevSendAfterSteps(rev, steps) || RevSendAfterSteps(rev, steps) == 0.22
    ensures RevSendAfterSteps(rev, steps) <= Max(rev, 0.22)
    decreases |steps|
  {
    if steps != [] {
      RevSendBounded(rev, steps[..|steps| - 1]);
    }
  }

  /** The steps a scheduler tick emitted form a chain: the first is the cursor
      it started from, each next one is one step later by the swung duration
      of the step before, and the cursor it leaves follows the last one. */
  ghost predicate Chained(bpm: real, swing: real, t0: real, i0: int, steps: seq<Step>, t1: real, i1: int)
    requires bpm > 0.0
    decreases |steps|
  {
    if steps == [] then t1 == t0 && i1 == i0
    else
      var last := steps[|steps| - 1];
      && Chained(bpm, swing, t0, i0, steps[..|steps| - 1], last.deadline, last.index)
      && t1 == last.deadline + StepDuration(bpm, swing, last.index)
      && i1 == (last.index + 1) % Steps
  }

  lemma ModSucc(x: int)
    ensures ((x % Steps) + 1) % Steps == (x + 1) % Steps
  {
  }

  /** Along a chain the step index counts up modulo 16 from the cursor it
      started at, and the cursor it leaves is the next index. */
  lemma {:induction false} ChainIndices(bpm: real, swing: real, t0: real, i0: int, steps: seq<Step>, t1: real, i1: int)
    requires bpm > 0.0 && 0 <= i0 < Steps
    requires Chained(bpm, swing, t0, i0, steps, t1, i1)
    ensures forall k :: 0 <= k < |steps| ==> steps[k].index == (i0 + k) % Steps
    ensures i1 == (i0 + |steps|) % Steps
    decreases |steps|
  {
    if steps != [] {
      var init := steps[..|steps| - 1];
      var last := steps[|steps| - 1];
      ChainIndices(bpm, swing, t0, i0, init, last.deadline, last.index);
      assert forall k :: 0 <= k < |init| ==> init[k] == steps[k];
      ModSucc(i0 + |init|);
    }
  }

  /** Along a chain deadlines strictly increase, so no step is emitted twice
      for one deadline, and the cursor left behind is later than every
      emitted deadline. */
  lemma {:induction false} ChainDeadlines(bpm: real, swing: real, t0: real, i0: int, steps: seq<Step>, t1: real, i1: int)
    requires 60.0 <= bpm <= 200.0 && 0.0 <= swing <= 0.2
    requires Chained(bpm, swing, t0, i0, steps, t1, i1)
    ensures forall k, l :: 0 <= k < l < |steps| ==> steps[k].deadline < steps[l].deadline
    ensures forall k :: 0 <= k < |steps| ==> t0 <= steps[k].deadline < t1
    ensures t0 <= t1
    decreases |steps|
  {
    if steps != [] {
      var init := steps[..|steps| - 1];
      var last := steps[|steps| - 1];
      ChainDeadlines(bpm, swing, t0, i0, init, last.deadline, last.index);
      assert forall k :: 0 <= k < |init| ==> init[k] == steps[k];
      StepDurationBounds(bpm, swing, last.index);
    }
  }

  /** Step `k` of a tick played what `emit` gives for its index and
      deadline, with the `k`-th pair of random draws. */
  ghost predicate Played(emit: (int, real, Roll) -> seq<Note>, roll: nat -> Roll, steps: seq<Step>)
  {
    if steps == [] then true
    else
      var n := |steps| - 1;
      && Played(emit, roll, steps[..n])
      && 0 <= steps[n].index < Steps
      && steps[n].notes == emit(steps[n].index, steps[n].deadline, roll(n))
  }

  /** `scheduleStep` with a fixed preset, parameter set and mode, as a
      function of the step index, the deadline and the draws. */
  function Emitter(p: Preset, params: Params, calm: bool): (int, real, Roll) -> seq<Note>
  {
    (idx: int, time: real, r: Roll) =>
      if 0 <= idx < Steps && p.chordEvery > 0 then StepNotes(p, params, calm, idx, time, r) else []
  }

  /** Read step by step, `Played` says every step of the tick. */
  lemma {:induction false} PlayedEach(emit: (int, real, Roll) -> seq<Note>, roll: nat -> Roll, steps: seq<Step>, k: int)
    requires Played(emit, roll, steps) && 0 <= k < |steps|
    ensures 0 <= steps[k].index < Steps
    ensures steps[k].notes == emit(steps[k].index, steps[k].deadline, roll(k))
    decreases |steps|
  {
    var n := |steps| - 1;
    if k < n {
      PlayedEach(emit, roll, steps[..n], k);
      assert steps[..n][k] == steps[k];
    }
  }

  /** Whether some note of a step is a kick. */
  predicate HasKick(notes: seq<Note>)
  {
    exists n :: 0 <= n < |notes| && notes[n].voice.Kick?
  }

  /** Whether some step of a tick triggers a kick, and with it the kick
      callback. */
  predicate KicksIn(steps: seq<Step>)
  {
    exists k :: 0 <= k < |steps| && HasKick(steps[k].notes)
  }

  /** A tick triggers a kick exactly when one of its steps falls on a beat,
      a step index divisible by four. */
  lemma {:induction false} KicksOnTheBeat(p: Preset, params: Params, calm: bool, roll: nat -> Roll, steps: seq<Step>)
    requires p.chordEvery > 0 && Played(Emitter(p, params, calm), roll, steps)
    ensures KicksIn(steps) <==> exists k :: 0 <= k < |steps| && steps[k].index % 4 == 0
  {
    forall k | 0 <= k < |steps|
      ensures HasKick(steps[k].notes) <==> steps[k].index % 4 == 0
    {
      PlayedEach(Emitter(p, params, calm), roll, steps, k);
      StepNotesVoices(p, params, calm, steps[k].index, steps[k].deadline, roll(k));
      PatternsAsArithmetic(steps[k].index);
      var notes := steps[k].notes;
      if HasVoice(notes, 0) {
        var n :| 0 <= n < |notes| && Rank(notes[n].voice) == 0;
        assert notes[n].voice.Kick?;
      }
      if HasKick(notes) {
        var n :| 0 <= n < |notes| && notes[n].voice.Kick?;
        assert Rank(notes[n].voice) == 0;
      }
    }
  }

  /** Appending one more link keeps a chain a chain. */
  lemma ChainSnoc(bpm: real, swing: real, t0: real, i0: int, steps: seq<Step>, t1: real, i1: int, st: Step)
    requires bpm > 0.0 && Chained(bpm, swing, t0, i0, steps, t1, i1)
    requires st.deadline == t1 && st.index == i1
    ensures Chained(bpm, swing, t0, i0, steps + [st], t1 + StepDuration(bpm, swing, i1), (i1 + 1) % Steps)
  {
    assert (steps + [st])[..|steps|] == steps;
  }

  lemma PlayedSnoc(emit: (int, real, Roll) -> seq<Note>, roll: nat -> Roll, steps: seq<Step>, st: Step)
    requires Played(emit, roll, steps)
    requires 0 <= st.index < Steps && st.notes == emit(st.index, st.deadline, roll(|steps|))
    ensures Played(emit, roll, steps + [st])
  {
    assert (steps + [st])[..|steps|] == steps;
  }

  // ---------------------------------------------------------------------
  // The engine
  // ---------------------------------------------------------------------

  /** The sequencer state `createTechnoEngine` closes over. */
  class Engine {
    var bpm: real
    var swing: real
    var calmMode: bool
    var stepIndex: int
    var nextNoteTime: real
    var isRunning: bool
    /** Whether the `setInterval` timer is armed. */
    var timerArmed: bool
    var params: Params
    var activePreset: PresetName
    /** The reverb send level: the last value each clap bump wrote. */
    var revSend: real
    /** The sidechain duck gain of the music bus. */
    var duck: Bus

    ghost predicate Valid()
      reads this
    {
      && 60.0 <= bpm <= 200.0
      && 0.0 <= swing <= 0.2
      && 0 <= stepIndex < Steps
      && timerArmed == isRunning
      && PresetOf(activePreset).chordEvery > 0
      && ParamsInRange(params)
      && 0.0 <= revSend <= 0.22
    }

    function CurrentPreset(): Preset
      reads this
    {
      PresetOf(activePreset)
    }

    /** The state `createTechnoEngine` builds: stopped, calm, DeepChill. */
    constructor ()
      ensures Valid()
      ensures bpm == 126.0 && swing == 0.06 && calmMode
      ensures stepIndex == 0 && nextNoteTime == 0.0 && !isRunning
      ensures params == DefaultParams && activePreset == DeepChill
      ensures revSend == 0.12 && duck == Steady(1.0)
    {
      bpm, swing, calmMode := 126.0, 0.06, true;
      stepIndex, nextNoteTime, isRunning, timerArmed := 0, 0.0, false, false;
      params, activePreset := DefaultParams, DeepChill;
      revSend, duck := 0.12, Steady(1.0);
    }

    method SetCalmMode(v: bool)
      requires Valid()
      modifies this`calmMode
      ensures Valid() && calmMode == v
    {
      calmMode := v;
    }

    /** `setBPM(next)`: clamped to [60, 200]. */
    method SetBPM(next: real)
      requires Valid()
      modifies this`bpm
      ensures Valid() && bpm == Clamp(next, 60.0, 200.0)
    {
      bpm := Max(60.0, Min(200.0, next));
    }

    /** `setSwing(v)`: clamped to [0, 0.2]. */
    method SetSwing(v: real)
      requires Valid()
      modifies this`swing
      ensures Valid() && swing == Clamp(v, 0.0, 0.2)
    {
      swing := Max(0.0, Min(0.2, v));
    }

    method SetParams(next: ParamUpdate)
      requires Valid()
      modifies this`params
      ensures Valid() && params == ApplyUpdate(old(params), next)
    {
      var hatDensity := UpdateField(params.hatDensity, next.hatDensity, 0.0, 1.0);
      var openHatChance := UpdateField(params.openHatChance, next.openHatChance, 0.0, 1.0);
      var clapLevel := UpdateField(params.clapLevel, next.clapLevel, 0.0, 1.5);
      var bassCutoff := UpdateField(params.bassCutoff, next.bassCutoff, 120.0, 3000.0);
      var bassVel := UpdateField(params.bassVel, next.bassVel, 0.05, 0.6);
      ApplyUpdateKeepsRange(params, next);
      params := Params(hatDensity, openHatChance, clapLevel, bassCutoff, bassVel);
    }

    /** `setPreset(name)`: an unknown name changes nothing; a known one
        becomes active and its five parameters are copied in. */
    method SetPreset(name: string)
      requires Valid()
      modifies this`activePreset, this`params
      ensures Valid()
      ensures PresetNamed(name).None? ==> activePreset == old(activePreset) && params == old(params)
      ensures PresetNamed(name).Some? ==>
        activePreset == PresetNamed(name).value && params == PresetOf(activePreset).params
    {
      var n := PresetNamed(name);
      if n.None? { return; }
      activePreset := n.value;
      PresetsWellFormed(n.value, params);
      SetParams(Supplied(PresetOf(n.value).params));
    }

    /** `start()`: a no-op while running; otherwise rewinds the cursor to step
        0 a short lead-in after `now`, applies the active preset and arms the
        timer. */
    method Start(now: real)
      requires Valid()
      modifies this`stepIndex, this`nextNoteTime, this`params, this`isRunning, this`timerArmed
      ensures Valid() && isRunning
      ensures old(isRunning) ==> stepIndex == old(stepIndex) && nextNoteTime == old(nextNoteTime)
                                 && params == old(params)
      ensures !old(isRunning) ==> stepIndex == 0 && nextNoteTime == now + LeadIn
                                  && params == CurrentPreset().params
    {
      if isRunning { return; }
      stepIndex := 0;
      nextNoteTime := now + LeadIn;
      PresetsWellFormed(activePreset, params);
      SetParams(Supplied(CurrentPreset().params));
      isRunning := true;
      timerArmed := true;
    }

    /** `stop()`: disarms the timer; the cursor is kept. */
    method Stop()
      requires Valid()
      modifies this`isRunning, this`timerArmed
      ensures Valid() && !isRunning
    {
      isRunning := false;
      timerArmed := false;
    }

    /** `scheduleStep(time, idx)`, with the two random draws passed in: the
        notes it triggers, and its two effects on the engine, the kick's duck
        on the music bus and the clap's bump of the reverb send. */
    method ScheduleStep(time: real, idx: int, roll: Roll) returns (notes: seq<Note>)
      requires Valid() && 0 <= idx < Steps
      modifies this`revSend, this`duck
      ensures Valid()
      ensures notes == StepNotes(CurrentPreset(), params, calmMode, idx, time, roll)
      ensures revSend == (if ClapPat[idx] != 0 then Min(0.22, old(revSend) + 0.03) else old(revSend))
      ensures duck == StepDuck(CurrentPreset(), calmMode, idx, time, roll, old(duck))
    {
      var p := CurrentPreset();
      var t := Jittered(time, roll.jitter, p.jitterMs);
      if KickPat[idx] != 0 {
        duck := Bus(KickDuckFloor(calmMode, PumpAmount), 1.0, t + KickRelease(calmMode));
      }
      if ClapPat[idx] != 0 {
        revSend := Min(0.22, revSend + 0.03);
      }
      notes := StepNotes(p, params, calmMode, idx, time, roll);
    }

    /** One turn of the scheduler loop's body: `scheduleStep(nextNoteTime,
        stepIndex)`, stated against the ghost record `played` of the steps
        already emitted in this tick and the duck and send levels `duck0` and
        `rev0` the tick started from. */
    method PlayStep(ghost played: seq<Step>, ghost duck0: Bus, ghost rev0: real, roll: nat -> Roll, k: nat) returns (st: Step)
      requires Valid() && k == |played|
      requires Played(Emitter(CurrentPreset(), params, calmMode), roll, played)
      requires duck == DuckAfterSteps(duck0, played) && revSend == RevSendAfterSteps(rev0, played)
      modifies this`revSend, this`duck
      ensures Valid()
      ensures st.index == stepIndex && st.deadline == nextNoteTime
      ensures Played(Emitter(CurrentPreset(), params, calmMode), roll, played + [st])
      ensures duck == DuckAfterSteps(duck0, played + [st]) && revSend == RevSendAfterSteps(rev0, played + [st])
    {
      var notes := ScheduleStep(nextNoteTime, stepIndex, roll(k));
      StepDuckFromNotes(CurrentPreset(), params, calmMode, stepIndex, nextNoteTime, roll(k), old(duck));
      st := Step(stepIndex, nextNoteTime, notes);
      PlayedSnoc(Emitter(CurrentPreset(), params, calmMode), roll, played, st);
      RevSendSnoc(rev0, played, st);
      DuckSnoc(duck0, played, st);
    }

    /** What a tick that started at cursor `(t0, i0)` with duck and send
        levels `duck0` and `rev0` has done once it emitted `steps`. */
    ghost predicate Ticked(t0: real, i0: int, duck0: Bus, rev0: real, roll: nat -> Roll, horizon: real, steps: seq<Step>)
      reads this
    {
      && Valid()
      && Chained(bpm, swing, t0, i0, steps, nextNoteTime, stepIndex)
      && (forall k :: 0 <= k < |steps| ==> steps[k].deadline < horizon)
      && Played(Emitter(CurrentPreset(), params, calmMode), roll, steps)
      && duck == DuckAfterSteps(duck0, steps)
      && revSend == RevSendAfterSteps(rev0, steps)
    }

    /** Moves the cursor past the step `st` just emitted at it. */
    method MoveCursor(ghost t0: real, ghost i0: int, ghost steps: seq<Step>, ghost st: Step, horizon: real)
      requires Valid() && Chained(bpm, swing, t0, i0, steps, nextNoteTime, stepIndex)
      requires st.index == stepIndex && st.deadline == nextNoteTime && nextNoteTime < horizon
      modifies this`stepIndex, this`nextNoteTime
      ensures Valid() && Chained(bpm, swing, t0, i0, steps + [st], nextNoteTime, stepIndex)
      ensures StepsLeft(nextNoteTime, horizon, 0.06) < StepsLeft(old(nextNoteTime), horizon, 0.06)
    {
      ChainSnoc(bpm, swing, t0, i0, steps, nextNoteTime, stepIndex, st);
      var dur := StepDuration(bpm, swing, stepIndex);
      StepDurationBounds(bpm, swing, stepIndex);
      nextNoteTime := nextNoteTime + dur;
      stepIndex := (stepIndex + 1) % Steps;
      StepsLeftShrinks(st.deadline, nextNoteTime, horizon, 0.06);
    }

    method Advance(ghost t0: real, ghost i0: int, ghost duck0: Bus, ghost rev0: real, roll: nat -> Roll,
                   horizon: real, ghost steps: seq<Step>, k: nat) returns (st: Step)
      requires k == |steps| && Ticked(t0, i0, duck0, rev0, roll, horizon, steps) && nextNoteTime < horizon
      modifies this`stepIndex, this`nextNoteTime, this`revSend, this`duck
      ensures Ticked(t0, i0, duck0, rev0, roll, horizon, steps + [st])
      ensures StepsLeft(nextNoteTime, horizon, 0.06) < StepsLeft(old(nextNoteTime), horizon, 0.06)
      ensures unchanged(this`bpm, this`swing, this`params, this`calmMode, this`activePreset)
    {
      st := PlayStep(steps, duck0, rev0, roll, k);
      MoveCursor(t0, i0, steps, st, horizon);
    }

    /** `scheduler()`: emits every step whose deadline falls before
        `now + ScheduleAhead`, advancing the cursor by swung durations. Step
        `k` of the tick uses the `k`-th pair of random draws `roll(k)`. The
        interval that runs it exists only while the engine is running. */
    method Scheduler(now: real, roll: nat -> Roll) returns (steps: seq<Step>)
      requires Valid() && isRunning
      modifies this`stepIndex, this`nextNoteTime, this`revSend, this`duck
      ensures Valid()
      ensures nextNoteTime >= now + ScheduleAhead
      ensures Chained(bpm, swing, old(nextNoteTime), old(stepIndex), steps, nextNoteTime, stepIndex)
      ensures forall k :: 0 <= k < |steps| ==> steps[k].deadline < now + ScheduleAhead
      ensures Played(Emitter(CurrentPreset(), params, calmMode), roll, steps)
      ensures duck == DuckAfterSteps(old(duck), steps)
      ensures revSend == RevSendAfterSteps(old(revSend), steps)
    {
      steps := [];
      while nextNoteTime < now + ScheduleAhead
        invariant Ticked(old(nextNoteTime), old(stepIndex), old(duck), old(revSend), roll, now + ScheduleAhead, steps)
        invariant unchanged(this`bpm, this`swing, this`params, this`calmMode, this`activePreset)
        decreases StepsLeft(nextNoteTime, now + ScheduleAhead, 0.06)
      {
        var st := Advance(old(nextNoteTime), old(stepIndex), old(duck), old(revSend), roll, now + ScheduleAhead, steps, |steps|);
        steps := steps + [st];
      }
    }
  }

  lemma StepsLeftShrinks(t: real, t': real, horizon: real, dur: real)
    requires dur > 0.0 && t < horizon && t' >= t + dur
    ensures StepsLeft(t', horizon, dur) < StepsLeft(t, horizon, dur)
  {
    StepsLeftDecreases(t, horizon, dur);
    if t' < horizon {
      assert (horizon - t') / dur <= (horizon - (t + dur)) / dur by {
        assert (horizon - t') <= (horizon - (t + dur));
      }
    }
  }
}
