/** The shatter envelope and the shape selection of the particle field: what
    a pinch does to the impulse, the explode amount and the reform timer, how
    those decay frame by frame, and which shape (sphere, cube or torus) the
    two point layers morph towards. The point positions themselves (sphere
    directions, torus and cube projections, hand forces) are rendering
    geometry and are not modelled. */
module Particles {
  import opened Signal

  // The knobs of the field (`CFG` with the values the settings supply).
  const ExplodeSmoothing: real := 0.22
  const PinchImpulseStrength: real := 26.0
  const PinchHoldBleed: real := 0.5
  const PinchImpulseDecay: real := 1.3
  const PinchMaxVel: real := 110.0
  const ParticleDamping: real := 0.90
  const ReformDelay: real := 0.30
  const ShatterOpacityMin: real := 0.05
  /** `settings.pinchFullShatter`. */
  const PinchFullShatter: bool := true
  const FistThreshold: real := 0.40
  const SplitThreshold: real := 0.15
  /** `morphSmoothing` (no setting supplies it, so its default). */
  const MorphSmoothing: real := 0.22
  /** The slower morph rate while shaping is blocked. */
  const BlockedMorph: real := 0.08
  /** The explode amount above which a full shatter blocks shaping. */
  const ShatterBlock: real := 0.55
  /** One frame at the assumed 60 frames per second. */
  const FrameDt: real := 1.0 / 60.0

  // ===================================================================
  // Pinch events
  // ===================================================================

  datatype Phase = Start | Hold | End | Other

  /** The argument of `pinchEvent`: a phase, and the strength and world
      position when the caller gives them. */
  datatype PinchEvent = PinchEvent(phase: Phase, strength: Option<real>, worldPos: Option<Vec3>)

  /** `clamp(ev.strength ?? 1, 0, 1)`. */
  function EventStrength(ev: PinchEvent): (s: real)
    ensures 0.0 <= s <= 1.0
    ensures ev.strength.None? ==> s == 1.0
    ensures ev.strength.Some? && 0.0 <= ev.strength.value <= 1.0 ==> s == ev.strength.value
    ensures ev.strength.Some? && ev.strength.value >= 1.0 ==> s == 1.0
    ensures ev.strength.Some? && ev.strength.value <= 0.0 ==> s == 0.0
  {
    match ev.strength
    case None => 1.0
    case Some(v) => Clamp(v, 0.0, 1.0)
  }

  /** `Math.min(impulse + gain, pinchMaxVel)`: a pinch pushes the impulse
      up by its gain, never past the velocity cap. */
  function Bumped(impulse: real, gain: real): (r: real)
    ensures r <= PinchMaxVel && r <= impulse + gain
    ensures impulse + gain <= PinchMaxVel ==> r == impulse + gain
    ensures impulse + gain >= PinchMaxVel ==> r == PinchMaxVel
    ensures impulse <= PinchMaxVel && gain >= 0.0 ==> impulse <= r
  {
    Min(impulse + gain, PinchMaxVel)
  }

  /** The explode target after a start or a hold: full under full shatter,
      otherwise the larger of the current target and the strength. */
  function Raised(target: real, s: real, fullShatter: bool): (r: real)
    ensures fullShatter ==> r == 1.0
    ensures !fullShatter ==> target <= r && s <= r && (r == target || r == s)
    ensures target <= 1.0 ==> target <= r
    ensures 0.0 <= target <= 1.0 && 0.0 <= s <= 1.0 ==> 0.0 <= r <= 1.0
  {
    if fullShatter then 1.0 else Max(target, s)
  }

  // ===================================================================
  // The per-frame envelope
  // ===================================================================

  /** `max(0, impulse - pinchImpulseDecay / 60) * particleDamping`. */
  function DecayedImpulse(impulse: real): (r: real)
    ensures 0.0 <= r
    ensures 0.0 <= impulse ==> r <= ParticleDamping * impulse
    ensures impulse <= PinchImpulseDecay * FrameDt ==> r == 0.0
  {
    Max(0.0, impulse - PinchImpulseDecay * FrameDt) * ParticleDamping
  }

  /** For any damping in [0, 1] the decayed impulse stays non-negative and
      never grows. */
  lemma DampingNeverGrows(impulse: real, decay: real, damping: real)
    requires 0.0 <= impulse && 0.0 <= decay && 0.0 <= damping <= 1.0
    ensures 0.0 <= Max(0.0, impulse - decay) * damping
    ensures Max(0.0, impulse - decay) * damping <= impulse
  {
    MulNonneg(Max(0.0, impulse - decay), damping);
    MulMono(Max(0.0, impulse - decay), damping, 1.0);
    assert Max(0.0, impulse - decay) * 1.0 <= impulse;
  }

  /** One frame of the reform timer: it counts down only while positive. */
  function ReformTick(r: real): (r': real)
    ensures r > 0.0 ==> r' < r && r' > -FrameDt
    ensures r <= 0.0 ==> r' == r
  {
    if r > 0.0 then r - FrameDt else r
  }

  /** The reform timer after `n` frames. */
  function Countdown(r: real, n: nat): real
  {
    if n == 0 then r else ReformTick(Countdown(r, n - 1))
  }

  /** A timer at a whole number `k` of frames falls by one frame per frame. */
  lemma {:induction false} CountdownLinear(k: nat, n: nat)
    requires n <= k
    ensures Countdown((k as real) * FrameDt, n) == ((k - n) as real) * FrameDt
  {
    if n > 0 {
      CountdownLinear(k, n - 1);
    }
  }

  /** A timer that has run out stays put. */
  lemma {:induction false} CountdownStays(r: real, k: nat, m: nat)
    requires Countdown(r, k) == 0.0
    ensures Countdown(r, k + m) == 0.0
  {
    if m > 0 {
      CountdownStays(r, k, m - 1);
    }
  }

  /** A timer set to `k` frames is positive for fewer than `k` frames and
      has run out, for good, from the `k`-th on. */
  lemma TimerExpires(k: nat, n: nat)
    ensures n < k ==> Countdown((k as real) * FrameDt, n) > 0.0
    ensures n >= k ==> Countdown((k as real) * FrameDt, n) == 0.0
  {
    if n < k {
      CountdownLinear(k, n);
    } else {
      CountdownLinear(k, k);
      CountdownStays((k as real) * FrameDt, k, n - k);
    }
  }

  /** A start or hold re-arms the reform timer for exactly 18 frames. */
  lemma ReformExpires(n: nat)
    ensures n < 18 ==> Countdown(ReformDelay, n) > 0.0
    ensures n >= 18 ==> Countdown(ReformDelay, n) == 0.0
  {
    assert ReformDelay == (18 as real) * FrameDt;
    TimerExpires(18, n);
  }

  /** The opacity of both layers for an explode amount. */
  function LayerOpacity(explode: real): (op: real)
    ensures 0.0 <= explode <= 1.0 ==> ShatterOpacityMin <= op <= 1.0
    ensures explode == 0.0 ==> op == 1.0
    ensures explode == 1.0 ==> op == ShatterOpacityMin
  {
    1.0 - explode * (1.0 - ShatterOpacityMin)
  }

  /** The opacity falls as the field shatters. */
  lemma OpacityFalls(e: real, e2: real)
    requires e <= e2
    ensures LayerOpacity(e2) <= LayerOpacity(e)
  {
  }

  /** The lerp of the explode amount closes the gap to its target by the
      smoothing factor every frame. */
  lemma ExplodeApproaches(explode: real, target: real)
    ensures Ema(explode, target, ExplodeSmoothing) - target == (1.0 - ExplodeSmoothing) * (explode - target)
    ensures 0.0 <= explode <= 1.0 && 0.0 <= target <= 1.0 ==>
      0.0 <= Ema(explode, target, ExplodeSmoothing) <= 1.0
  {
  }

  // ===================================================================
  // Shape selection
  // ===================================================================

  /** The blend weights of the three shapes. */
  datatype Weights = Weights(sphere: real, cube: real, torus: real) {

    function Sum(): real { sphere + cube + torus }

    predicate InUnit()
    {
      && 0.0 <= sphere <= 1.0 && 0.0 <= cube <= 1.0 && 0.0 <= torus <= 1.0
    }

    /** `smooth` of every weight towards a target at one rate. */
    function SmoothTo(t: Weights, s: real): Weights
    {
      Weights(Ema(sphere, t.sphere, s), Ema(cube, t.cube, s), Ema(torus, t.torus, s))
    }
  }

  const AllSphere: Weights := Weights(1.0, 0.0, 0.0)
  const AllCube: Weights := Weights(0.0, 1.0, 0.0)
  const AllTorus: Weights := Weights(0.0, 0.0, 1.0)

  predicate OneHot(w: Weights)
  {
    w == AllSphere || w == AllCube || w == AllTorus
  }

  function ShapingBlocked(explode: real, fullShatter: bool): bool
  {
    explode > ShatterBlock && fullShatter
  }

  /** The one-hot target: torus when two hands are apart enough, else cube
      for a fist, else sphere; a blocked shaping always means sphere. */
  function ShapeTarget(blocked: bool, twoHands: bool, sep: real, fist: real): (w: Weights)
    ensures OneHot(w)
    ensures w == AllTorus <==> !blocked && twoHands && sep > SplitThreshold
    ensures w == AllCube <==> !blocked && !(twoHands && sep > SplitThreshold) && fist > FistThreshold
    ensures w == AllSphere <==>
      blocked || (!(twoHands && sep > SplitThreshold) && fist <= FistThreshold)
  {
    var twoHandsActive := !blocked && twoHands && sep > SplitThreshold;
    var fistActive := !blocked && fist > FistThreshold;
    if twoHandsActive then AllTorus else if fistActive then AllCube else AllSphere
  }

  function MorphRate(blocked: bool): (s: real)
    ensures 0.0 < s < 1.0
  {
    if blocked then BlockedMorph else MorphSmoothing
  }

  /** Smoothing towards a one-hot target keeps the weights a blend: each in
      [0, 1], summing to 1, with the chosen shape's weight never falling. */
  lemma SmoothKeepsBlend(w: Weights, t: Weights, s: real)
    requires w.InUnit() && w.Sum() == 1.0 && OneHot(t) && 0.0 <= s <= 1.0
    ensures w.SmoothTo(t, s).InUnit()
    ensures w.SmoothTo(t, s).Sum() == 1.0
    ensures t == AllSphere ==> w.sphere <= w.SmoothTo(t, s).sphere
    ensures t == AllCube ==> w.cube <= w.SmoothTo(t, s).cube
    ensures t == AllTorus ==> w.torus <= w.SmoothTo(t, s).torus
  {
    Distrib3(t.sphere - w.sphere, t.cube - w.cube, t.torus - w.torus, s);
  }

  lemma Distrib3(x: real, y: real, z: real, s: real)
    ensures x * s + y * s + z * s == (x + y + z) * s
  {
  }

  /** `gesture.twoHands` together with two tracked hands. */
  function TwoHandsOf(gesture: Option<Gesture>, hands: seq<Influence>): bool
  {
    gesture.Some? && gesture.value.twoHands && |hands| >= 2
  }

  /** `clamp01(gesture?.sep01 ?? 0)`. */
  function SepOf(gesture: Option<Gesture>): (sep: real)
    ensures 0.0 <= sep <= 1.0
    ensures gesture.None? ==> sep == 0.0
  {
    if gesture.Some? then Clamp01(gesture.value.sep01) else 0.0
  }

  /** `gesture?.fist ?? 0`. */
  function FistOf(gesture: Option<Gesture>): real
  {
    if gesture.Some? then gesture.value.fist else 0.0
  }

  // ===================================================================
  // The field state
  // ===================================================================

  /** The module-level state of the particle field that the control logic
      drives. `meshes` says whether `initializeSphere` has built the layers. */
  class Field {
    /** `CFG.pinchFullShatter`. */
    const fullShatter: bool
    var meshes: bool
    var explode: real
    var explodeTarget: real
    var impulse: real
    var reformT: real
    var pinchCenter: Vec3
    var weights: Weights
    /** The material opacity of both layers. */
    var opacity: real

    /** The envelope stays in range: explode and its target in [0, 1], the
        impulse in [0, pinchMaxVel], the timer at most `reformDelay` and less
        than one frame below zero, and the weights a blend summing to 1. */
    ghost predicate Valid()
      reads this
    {
      && 0.0 <= explode <= 1.0
      && 0.0 <= explodeTarget <= 1.0
      && 0.0 <= impulse <= PinchMaxVel
      && -FrameDt < reformT <= ReformDelay
      && weights.InUnit() && weights.Sum() == 1.0
    }

    /** The state at module load, before the layers exist. */
    constructor ()
      ensures Valid() && fullShatter == PinchFullShatter && !meshes
      ensures explode == 0.0 && explodeTarget == 0.0 && impulse == 0.0 && reformT == 0.0
      ensures weights == AllSphere && pinchCenter == Vec3(0.0, 0.0, 0.0) && opacity == 1.0
    {
      fullShatter := PinchFullShatter;
      meshes := false;
      explode, explodeTarget, impulse, reformT := 0.0, 0.0, 0.0, 0.0;
      pinchCenter := Vec3(0.0, 0.0, 0.0);
      weights := AllSphere;
      opacity := 1.0;
    }

    /** `initializeSphere`: (re)builds both layers with fresh materials and
        resets the envelope and the blend to a plain sphere. */
    method InitializeSphere()
      modifies this`meshes, this`explode, this`explodeTarget, this`impulse, this`reformT
      modifies this`pinchCenter, this`weights, this`opacity
      ensures Valid() && meshes
      ensures explode == 0.0 && explodeTarget == 0.0 && impulse == 0.0 && reformT == 0.0
      ensures weights == AllSphere && pinchCenter == Vec3(0.0, 0.0, 0.0) && opacity == 1.0
    {
      meshes := true;
      opacity := 1.0;
      weights := AllSphere;
      explode, explodeTarget, impulse, reformT := 0.0, 0.0, 0.0, 0.0;
      pinchCenter := Vec3(0.0, 0.0, 0.0);
    }

    /** `pinchEvent(ev)`: a start kicks the impulse hard, a hold bleeds a
        little more in; both push the explode target up and re-arm the
        reform timer. An end only drops the explode target. */
    method PinchEvent(ev: PinchEvent)
      requires Valid()
      modifies this`impulse, this`explodeTarget, this`reformT, this`pinchCenter
      ensures Valid()
      ensures pinchCenter == if ev.worldPos.Some? then ev.worldPos.value else old(pinchCenter)
      ensures ev.phase == Start ==>
        && impulse == Bumped(old(impulse), EventStrength(ev) * PinchImpulseStrength)
        && explodeTarget == Raised(old(explodeTarget), EventStrength(ev), fullShatter)
        && reformT == ReformDelay
      ensures ev.phase == Hold ==>
        && impulse == Bumped(old(impulse), EventStrength(ev) * PinchHoldBleed)
        && explodeTarget == Raised(old(explodeTarget), EventStrength(ev), fullShatter)
        && reformT == ReformDelay
      ensures ev.phase == End ==>
        explodeTarget == 0.0 && impulse == old(impulse) && reformT == old(reformT)
      ensures ev.phase == Other ==>
        explodeTarget == old(explodeTarget) && impulse == old(impulse) && reformT == old(reformT)
      ensures ev.phase != End ==> old(explodeTarget) <= explodeTarget
    {
      var s := EventStrength(ev);
      if ev.worldPos.Some? {
        pinchCenter := ev.worldPos.value;
      }
      match ev.phase
      case Start =>
        impulse := Bumped(impulse, s * PinchImpulseStrength);
        explodeTarget := Raised(explodeTarget, s, fullShatter);
        reformT := ReformDelay;
      case Hold =>
        explodeTarget := Raised(explodeTarget, s, fullShatter);
        impulse := Bumped(impulse, s * PinchHoldBleed);
        reformT := ReformDelay;
      case End =>
        explodeTarget := 0.0;
      case Other =>
    }

    /** The envelope and shape part of `updateParticles`: nothing before the
        layers exist; otherwise the reform timer ticks, the impulse decays
        and is damped, explode follows its target, the shape weights morph
        towards the one-hot target (slowly while a full shatter blocks
        shaping), and the layer opacity follows explode. */
    method UpdateEnvelope(gesture: Option<Gesture>, hands: seq<Influence>)
      requires Valid()
      modifies this`reformT, this`impulse, this`explode, this`weights, this`opacity
      ensures Valid()
      ensures !meshes ==> unchanged(this)
      ensures meshes ==>
        && reformT == ReformTick(old(reformT))
        && impulse == DecayedImpulse(old(impulse))
        && explode == Ema(old(explode), explodeTarget, ExplodeSmoothing)
        && weights == old(weights).SmoothTo(
             ShapeTarget(ShapingBlocked(explode, fullShatter), TwoHandsOf(gesture, hands),
                         SepOf(gesture), FistOf(gesture)),
             MorphRate(ShapingBlocked(explode, fullShatter)))
        && opacity == LayerOpacity(explode)
    {
      if !meshes {
        return;
      }
      reformT := ReformTick(reformT);
      impulse := DecayedImpulse(impulse);
      ExplodeApproaches(explode, explodeTarget);
      explode := Ema(explode, explodeTarget, ExplodeSmoothing);
      var blocked := ShapingBlocked(explode, fullShatter);
      var tgt := ShapeTarget(blocked, TwoHandsOf(gesture, hands), SepOf(gesture), FistOf(gesture));
      var rate := MorphRate(blocked);
      SmoothKeepsBlend(weights, tgt, rate);
      weights := weights.SmoothTo(tgt, rate);
      opacity := LayerOpacity(explode);
    }
  }
}
