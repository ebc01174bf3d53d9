/** The hand tracker's control logic: the landmark-to-world map, the pinch
    strength of a hand and the choice of the best pinch, the per-label hand
    slots and their velocities, the confidence sort and the two influences,
    the gesture summary, and the pinch hysteresis that emits start, hold and
    end events to the particle field and the break mode of the audio engine.
    Landmark detection itself, the camera and the preview canvas are not
    modelled: a frame arrives as a list of detected hands. */
module Hands {
  import opened Signal
  import Particles

  const PinchOn: real := 0.78
  const PinchOff: real := 0.62
  const PinchSmooth: real := 0.25
  /** `settings.gestureSmoothing`. */
  const GestureSmoothing: real := 0.25
  /** `settings.mirrorPreview`. */
  const MirrorPreview: bool := true
  /** `settings.invertDepth`. */
  const InvertDepth: bool := false
  /** Half the width of the world box the unit landmark square maps onto. */
  const WorldScale: real := 30.0
  /** The hand distance at which `sep01` saturates. */
  const SepRange: real := 40.0
  /** The smallest hand span the pinch strength divides by. */
  const MinSpan: real := 0.000001
  /** The depth weight of the landmark distances. */
  const DepthWeight: real := 0.7
  /** The fraction of the hand span at which the pinch strength reaches zero. */
  const PinchSpanRatio: real := 0.7
  const DtMin: real := 0.016
  const DtMax: real := 0.08

  // MediaPipe landmark indices.
  const Wrist: nat := 0
  const ThumbTip: nat := 4
  const IndexTip: nat := 8
  const MiddleMcp: nat := 9

  // ===================================================================
  // Vectors and the world map
  // ===================================================================

  function Sub(a: Vec3, b: Vec3): Vec3 { Vec3(a.x - b.x, a.y - b.y, a.z - b.z) }

  function Scale(v: Vec3, k: real): Vec3 { Vec3(v.x * k, v.y * k, v.z * k) }

  function Midpoint(a: Vec3, b: Vec3): Vec3 { Vec3((a.x + b.x) / 2.0, (a.y + b.y) / 2.0, (a.z + b.z) / 2.0) }

  /** `toWorld`: a landmark in preview coordinates (x, y in [0, 1], y down)
      to world space, x mirrored for a mirrored preview, y pointing up, depth
      scaled by the same factor. */
  function ToWorld(p: Vec3, mirror: bool, invertDepth: bool): Vec3
  {
    var x := if mirror then 1.0 - p.x else p.x;
    Vec3((x * 2.0 - 1.0) * WorldScale, -(p.y * 2.0 - 1.0) * WorldScale,
         (if invertDepth then -1.0 else 1.0) * p.z * WorldScale)
  }

  /** The preview point a world point comes from: the inverse of `ToWorld`. */
  function FromWorld(w: Vec3, mirror: bool, invertDepth: bool): Vec3
  {
    var x := (w.x / WorldScale + 1.0) / 2.0;
    Vec3(if mirror then 1.0 - x else x, (1.0 - w.y / WorldScale) / 2.0,
         (if invertDepth then -1.0 else 1.0) * w.z / WorldScale)
  }

  lemma ToWorldRoundTrip(p: Vec3, mirror: bool, invertDepth: bool)
    ensures FromWorld(ToWorld(p, mirror, invertDepth), mirror, invertDepth) == p
  {
  }

  /** The unit square of the preview lands on [-30, 30] in x and y; the
      centre of the preview is the world origin. */
  lemma ToWorldRange(p: Vec3, mirror: bool, invertDepth: bool)
    requires 0.0 <= p.x <= 1.0 && 0.0 <= p.y <= 1.0
    ensures -WorldScale <= ToWorld(p, mirror, invertDepth).x <= WorldScale
    ensures -WorldScale <= ToWorld(p, mirror, invertDepth).y <= WorldScale
    ensures ToWorld(Vec3(0.5, 0.5, 0.0), mirror, invertDepth) == Vec3(0.0, 0.0, 0.0)
  {
  }

  /** Mirroring flips world x and nothing else; higher up on the preview
      (smaller y) is higher in the world; to the right on the mirrored preview
      (smaller camera x) is to the right in the world. */
  lemma ToWorldOrientation(p: Vec3, q: Vec3, invertDepth: bool)
    ensures ToWorld(p, true, invertDepth).x == -ToWorld(p, false, invertDepth).x
    ensures ToWorld(p, true, invertDepth).y == ToWorld(p, false, invertDepth).y
    ensures ToWorld(p, true, invertDepth).z == ToWorld(p, false, invertDepth).z
    ensures p.y < q.y ==> ToWorld(q, true, invertDepth).y < ToWorld(p, true, invertDepth).y
    ensures p.x < q.x ==> ToWorld(q, true, invertDepth).x < ToWorld(p, true, invertDepth).x
    ensures p.x < q.x ==> ToWorld(p, false, invertDepth).x < ToWorld(q, false, invertDepth).x
  {
  }

  // ===================================================================
  // Pinch strength
  // ===================================================================

  /** `clamp(1 - d / (0.7 * max(1e-6, span)), 0, 1)` for the thumb-index
      distance `d` and the wrist-to-middle span of the hand. */
  function PinchStrength(gap: real, span: real): (s: real)
    ensures 0.0 <= s <= 1.0
  {
    Clamp01(1.0 - gap / (PinchSpanRatio * Max(MinSpan, span)))
  }

  /** Closed fingers pinch fully, fingers apart by 70% of the span or more
      do not pinch at all, and a wider gap never pinches harder. */
  lemma PinchStrengthShape(gap: real, gap2: real, span: real)
    requires gap <= gap2
    ensures gap <= 0.0 ==> PinchStrength(gap, span) == 1.0
    ensures span >= MinSpan && gap >= PinchSpanRatio * span ==> PinchStrength(gap, span) == 0.0
    ensures PinchStrength(gap2, span) <= PinchStrength(gap, span)
  {
    var w := PinchSpanRatio * Max(MinSpan, span);
    assert w > 0.0;
    DivMono(gap, gap2, w);
    if span >= MinSpan && gap >= PinchSpanRatio * span {
      DivMono(w, gap, w);
      assert w / w == 1.0;
    }
    if gap <= 0.0 {
      DivMono(gap, 0.0, w);
    }
  }

  lemma DivMono(a: real, b: real, w: real)
    requires a <= b && w > 0.0
    ensures a / w <= b / w
  {
    assert b / w - a / w == (b - a) / w;
  }

  /** The distance between two landmarks with depth weighted by 0.7. */
  function LandmarkGap(a: Vec3, b: Vec3, hypot: Vec3 -> real): real
  {
    hypot(Vec3(a.x - b.x, a.y - b.y, (a.z - b.z) * DepthWeight))
  }

  /** The pinch strength of one hand's landmarks. */
  function StrengthOf(lm: seq<Vec3>, hypot: Vec3 -> real): (s: real)
    requires |lm| > MiddleMcp
    ensures 0.0 <= s <= 1.0
  {
    PinchStrength(LandmarkGap(lm[ThumbTip], lm[IndexTip], hypot),
                  LandmarkGap(lm[MiddleMcp], lm[Wrist], hypot))
  }

  /** Where a pinch is: the thumb-index midpoint in world space. */
  function PinchWorld(lm: seq<Vec3>): Vec3
    requires |lm| > MiddleMcp
  {
    ToWorld(Midpoint(lm[ThumbTip], lm[IndexTip]), MirrorPreview, InvertDepth)
  }

  // ===================================================================
  // Detected hands
  // ===================================================================

  /** One detected hand of a frame: its landmarks, the handedness label and
      score when MediaPipe reports them, and its openness and fist scores. */
  datatype Detection = Detection(landmarks: seq<Vec3>, handedness: Option<string>, score: Option<real>,
                                 openness: real, fist: real)

  predicate WellFormed(ds: seq<Detection>)
  {
    forall i :: 0 <= i < |ds| ==> |ds[i].landmarks| > MiddleMcp
  }

  /** The tracker's memory of one hand label (`H.Left`, `H.Right`). */
  datatype Slot = Slot(worldPos: Vec3, prev: Vec3, vel: Vec3, conf: real, seen: bool)

  datatype Slots = Slots(left: Slot, right: Slot) {

    /** `H[label] || H.Right`: a hand labelled "Left" goes to the left slot,
        every other hand to the right one. */
    function Pick(handedness: Option<string>): Slot
    {
      if handedness == Some("Left") then left else right
    }

    /** The slot update for one detected hand: the old position becomes the
        previous one, the wrist in world space the new one, and the velocity
        their difference over the frame time. */
    function Track(d: Detection, dt: real): Slots
      requires |d.landmarks| > MiddleMcp && dt > 0.0
    {
      var h := Pick(d.handedness);
      var wp := ToWorld(d.landmarks[Wrist], MirrorPreview, InvertDepth);
      var h' := Slot(wp, h.worldPos, Scale(Sub(wp, h.worldPos), 1.0 / dt), OrNone(d.score), true);
      if d.handedness == Some("Left") then Slots(h', right) else Slots(left, h')
    }
  }

  /** Tracking a hand moves only the slot its label picks: the wrist in world
      space becomes the position, the old position the previous one, and the
      velocity carried over the frame time leads from the previous position
      to the new one. */
  lemma TrackMovesOneSlot(s: Slots, d: Detection, dt: real)
    requires |d.landmarks| > MiddleMcp && dt > 0.0
    ensures var t := s.Track(d, dt);
      var isLeft := d.handedness == Some("Left");
      var h := if isLeft then t.left else t.right;
      && (if isLeft then t.right == s.right else t.left == s.left)
      && h.worldPos == ToWorld(d.landmarks[Wrist], MirrorPreview, InvertDepth)
      && h.prev == s.Pick(d.handedness).worldPos
      && h.seen && h.conf == OrNone(d.score)
      && h.prev.x + h.vel.x * dt == h.worldPos.x
      && h.prev.y + h.vel.y * dt == h.worldPos.y
      && h.prev.z + h.vel.z * dt == h.worldPos.z
  {
  }

  /** `x ?? 0` for a score. */
  function OrNone(v: Option<real>): real
  {
    if v.Some? then v.value else 0.0
  }

  /** An entry of `local`: a hand of this frame as the sort sees it. */
  datatype Local = Local(confidence: real, worldPos: Vec3, velocity: Vec3, openness: real, fist: real)

  /** The entry a detected hand contributes, read from its updated slot. */
  function EntryOf(s: Slots, d: Detection): Local
  {
    var h := s.Pick(d.handedness);
    Local(OrNone(d.score), h.worldPos, h.vel, d.openness, d.fist)
  }

  datatype Scanned = Scanned(slots: Slots, local: seq<Local>)

  /** The slots and the `local` list after the hand loop has seen `ds`. */
  function Scan(s: Slots, ds: seq<Detection>, dt: real): (r: Scanned)
    requires WellFormed(ds) && dt > 0.0
    ensures |r.local| == |ds|
  {
    if ds == [] then Scanned(s, [])
    else
      var r := Scan(s, ds[..|ds| - 1], dt);
      var s' := r.slots.Track(ds[|ds| - 1], dt);
      Scanned(s', r.local + [EntryOf(s', ds[|ds| - 1])])
  }

  /** Each entry of `local` carries its hand's score, scores and wrist in
      world space, in the order the hands were detected. */
  lemma {:induction false} ScanEntries(s: Slots, ds: seq<Detection>, dt: real, i: nat)
    requires WellFormed(ds) && dt > 0.0 && i < |ds|
    ensures Scan(s, ds, dt).local[i].confidence == OrNone(ds[i].score)
    ensures Scan(s, ds, dt).local[i].worldPos == ToWorld(ds[i].landmarks[Wrist], MirrorPreview, InvertDepth)
    ensures Scan(s, ds, dt).local[i].openness == ds[i].openness
    ensures Scan(s, ds, dt).local[i].fist == ds[i].fist
  {
    if i < |ds| - 1 {
      ScanEntries(s, ds[..|ds| - 1], dt, i);
    }
  }

  /** A slot is seen after the loop exactly when some hand went to it. */
  lemma {:induction false} ScanSeen(s: Slots, ds: seq<Detection>, dt: real)
    requires WellFormed(ds) && dt > 0.0 && !s.left.seen && !s.right.seen
    ensures Scan(s, ds, dt).slots.left.seen <==>
      exists i :: 0 <= i < |ds| && ds[i].handedness == Some("Left")
    ensures Scan(s, ds, dt).slots.right.seen <==>
      exists i :: 0 <= i < |ds| && ds[i].handedness != Some("Left")
  {
    if ds != [] {
      var n := |ds| - 1;
      ScanSeen(s, ds[..n], dt);
      if ds[n].handedness == Some("Left") {
        assert exists i :: 0 <= i < |ds| && ds[i].handedness == Some("Left");
      } else {
        assert exists i :: 0 <= i < |ds| && ds[i].handedness != Some("Left");
      }
      forall i | 0 <= i < n ensures ds[..n][i] == ds[i] { }
    }
  }

  // ===================================================================
  // The best pinch
  // ===================================================================

  datatype Best = Best(strength: real, world: Option<Vec3>)

  /** The best pinch after the hand loop has seen `ds`: a hand replaces the
      current best only with a strictly greater strength. */
  function BestPinch(ds: seq<Detection>, hypot: Vec3 -> real): (b: Best)
    requires WellFormed(ds)
    ensures 0.0 <= b.strength <= 1.0
  {
    if ds == [] then Best(0.0, None)
    else
      var b := BestPinch(ds[..|ds| - 1], hypot);
      var lm := ds[|ds| - 1].landmarks;
      var ps := StrengthOf(lm, hypot);
      if ps > b.strength then Best(ps, Some(PinchWorld(lm))) else b
  }

  lemma PrefixWellFormed(ds: seq<Detection>, n: nat)
    requires WellFormed(ds) && n <= |ds|
    ensures WellFormed(ds[..n])
  {
    forall i | 0 <= i < n ensures |ds[..n][i].landmarks| > MiddleMcp { assert ds[..n][i] == ds[i]; }
  }

  /** The best pinch is at least as strong as every hand, and there is no
      pinch position exactly when no hand pinches at all. */
  lemma {:induction false} BestPinchIsMax(ds: seq<Detection>, hypot: Vec3 -> real)
    requires WellFormed(ds)
    ensures forall i :: 0 <= i < |ds| ==> StrengthOf(ds[i].landmarks, hypot) <= BestPinch(ds, hypot).strength
    ensures BestPinch(ds, hypot).world.None? <==> BestPinch(ds, hypot).strength == 0.0
  {
    if ds != [] {
      var n := |ds| - 1;
      PrefixWellFormed(ds, n);
      BestPinchIsMax(ds[..n], hypot);
      forall i | 0 <= i < n ensures ds[..n][i] == ds[i] { }
    }
  }

  /** The pinch position is that of the first hand of the best strength. */
  lemma {:induction false} BestPinchIsFirst(ds: seq<Detection>, hypot: Vec3 -> real)
    requires WellFormed(ds) && BestPinch(ds, hypot).world.Some?
    ensures exists i ::
      && 0 <= i < |ds|
      && StrengthOf(ds[i].landmarks, hypot) == BestPinch(ds, hypot).strength
      && BestPinch(ds, hypot).world == Some(PinchWorld(ds[i].landmarks))
      && forall j :: 0 <= j < i ==> StrengthOf(ds[j].landmarks, hypot) < BestPinch(ds, hypot).strength
  {
    var n := |ds| - 1;
    var pre := ds[..n];
    PrefixWellFormed(ds, n);
    var b := BestPinch(pre, hypot);
    var ps := StrengthOf(ds[n].landmarks, hypot);
    forall i | 0 <= i < n ensures pre[i] == ds[i] { }
    if ps > b.strength {
      BestPinchIsMax(pre, hypot);
      assert forall j :: 0 <= j < n ==> StrengthOf(ds[j].landmarks, hypot) < ps;
      assert StrengthOf(ds[n].landmarks, hypot) == BestPinch(ds, hypot).strength;
    } else {
      BestPinchIsFirst(pre, hypot);
      var i :| 0 <= i < n && StrengthOf(pre[i].landmarks, hypot) == b.strength
        && b.world == Some(PinchWorld(pre[i].landmarks))
        && forall j :: 0 <= j < i ==> StrengthOf(pre[j].landmarks, hypot) < b.strength;
      assert StrengthOf(ds[i].landmarks, hypot) == b.strength;
    }
  }

  // ===================================================================
  // The confidence sort and the influences
  // ===================================================================

  predicate SortedByConfidence(s: seq<Local>)
  {
    forall i, j :: 0 <= i < j < |s| ==> s[i].confidence >= s[j].confidence
  }

  /** Inserts a hand after every hand at least as confident. */
  function Insert(x: Local, s: seq<Local>): (r: seq<Local>)
    ensures |r| == |s| + 1
    ensures multiset(r) == multiset(s) + multiset{x}
    ensures r[0] == x || (s != [] && r[0] == s[0])
  {
    if s == [] then [x]
    else
      assert s == [s[0]] + s[1..];
      if s[0].confidence >= x.confidence then [s[0]] + Insert(x, s[1..]) else [x] + s
  }

  /** No hand of `s` is more confident than `c`. */
  predicate AllBelow(c: real, s: seq<Local>)
  {
    forall k :: 0 <= k < |s| ==> s[k].confidence <= c
  }

  lemma {:induction false} InsertBelow(c: real, x: Local, s: seq<Local>)
    requires AllBelow(c, s) && x.confidence <= c
    ensures AllBelow(c, Insert(x, s))
  {
    if s != [] && s[0].confidence >= x.confidence {
      InsertBelow(c, x, s[1..]);
    }
  }

  lemma SortedCons(h: Local, t: seq<Local>)
    requires SortedByConfidence(t) && AllBelow(h.confidence, t)
    ensures SortedByConfidence([h] + t)
  {
  }

  lemma {:induction false} InsertSorted(x: Local, s: seq<Local>)
    requires SortedByConfidence(s)
    ensures SortedByConfidence(Insert(x, s))
  {
    if s != [] {
      if s[0].confidence >= x.confidence {
        InsertSorted(x, s[1..]);
        InsertBelow(s[0].confidence, x, s[1..]);
        SortedCons(s[0], Insert(x, s[1..]));
      } else {
        SortedCons(x, s);
      }
    }
  }

  /** `local.sort((a, b) => b.confidence - a.confidence)`: a stable sort by
      descending confidence. */
  function SortLocal(s: seq<Local>): (r: seq<Local>)
    ensures |r| == |s|
    ensures multiset(r) == multiset(s)
  {
    if s == [] then []
    else
      assert s == s[..|s| - 1] + [s[|s| - 1]];
      Insert(s[|s| - 1], SortLocal(s[..|s| - 1]))
  }

  lemma {:induction false} SortLocalSorted(s: seq<Local>)
    ensures SortedByConfidence(SortLocal(s))
  {
    if s != [] {
      SortLocalSorted(s[..|s| - 1]);
      InsertSorted(s[|s| - 1], SortLocal(s[..|s| - 1]));
    }
  }

  function InfluenceOf(l: Local): Influence
  {
    Influence(l.worldPos, l.velocity, l.confidence)
  }

  /** `handInfluences`: the first two sorted hands, `null` where there are
      fewer. */
  function Influences(sorted: seq<Local>): (r: seq<Option<Influence>>)
    ensures |r| == 2
  {
    [if |sorted| > 0 then Some(InfluenceOf(sorted[0])) else None,
     if |sorted| > 1 then Some(InfluenceOf(sorted[1])) else None]
  }

  /** The influences are the two most confident hands of the frame, most
      confident first, padded with nothing where fewer hands were seen. */
  lemma InfluencesTopTwo(local: seq<Local>)
    ensures var r := Influences(SortLocal(local));
      && (r[0].Some? <==> |local| >= 1)
      && (r[1].Some? <==> |local| >= 2)
      && (r[0].Some? ==>
            && InfluenceOf(SortLocal(local)[0]) == r[0].value
            && SortLocal(local)[0] in multiset(local)
            && forall l :: l in local ==> l.confidence <= r[0].value.confidence)
      && (r[1].Some? ==>
            && r[1].value.confidence <= r[0].value.confidence
            && SortLocal(local)[1] in multiset(local))
  {
    var s := SortLocal(local);
    SortLocalSorted(local);
    if |s| > 0 {
      assert s[0] in multiset(local);
      forall l | l in local ensures l.confidence <= s[0].confidence {
        assert l in multiset(s);
        var j :| 0 <= j < |s| && s[j] == l;
      }
    }
    if |s| > 1 {
      assert s[1] in multiset(local);
    }
  }

  /** The second influence is the next hand of the sort: the most confident
      of the hands that rank below the first. */
  lemma SecondInfluenceIsNext(local: seq<Local>)
    ensures var s := SortLocal(local);
      |s| >= 2 ==>
        && Influences(s)[1] == Some(InfluenceOf(s[1]))
        && forall k :: 1 <= k < |s| ==> s[k].confidence <= s[1].confidence
  {
    SortLocalSorted(local);
  }

  // ===================================================================
  // The gesture summary
  // ===================================================================

  /** The gesture after a frame: openness and fist follow the most confident
      hand, and with both influences present the separation is their
      distance over 40, clamped; otherwise it relaxes towards 0. */
  function GestureAfter(g: Gesture, sorted: seq<Local>, inf: seq<Option<Influence>>,
                        hypot: Vec3 -> real): Gesture
    requires |inf| == 2
  {
    var s := GestureSmoothing;
    var open := Ema(g.open, if |sorted| > 0 then sorted[0].openness else 0.0, s);
    var fist := Ema(g.fist, if |sorted| > 0 then sorted[0].fist else 0.0, s);
    if inf[0].Some? && inf[1].Some? then
      var d := hypot(Sub(inf[0].value.worldPos, inf[1].value.worldPos));
      Gesture(open, fist, true, Clamp(d / SepRange, 0.0, 1.0))
    else
      Gesture(open, fist, false, Ema(g.sep01, 0.0, s))
  }

  /** With two hands the separation is their clamped distance over 40 and
      `twoHands` holds; otherwise `twoHands` is off and the separation moves
      a quarter of the way towards 0. Scores in [0, 1] keep the summary in
      [0, 1]. */
  lemma GestureSummary(g: Gesture, sorted: seq<Local>, inf: seq<Option<Influence>>,
                       hypot: Vec3 -> real)
    requires |inf| == 2
    ensures var g' := GestureAfter(g, sorted, inf, hypot);
      && (inf[0].Some? && inf[1].Some? ==>
            g'.twoHands
            && g'.sep01 == Clamp(hypot(Sub(inf[0].value.worldPos, inf[1].value.worldPos)) / SepRange, 0.0, 1.0))
      && (!(inf[0].Some? && inf[1].Some?) ==>
            !g'.twoHands && g'.sep01 == (1.0 - GestureSmoothing) * g.sep01)
      && (0.0 <= g.sep01 <= 1.0 ==> 0.0 <= g'.sep01 <= 1.0)
      && (0.0 <= g.open <= 1.0 && (|sorted| > 0 ==> 0.0 <= sorted[0].openness <= 1.0) ==>
            0.0 <= g'.open <= 1.0)
      && (0.0 <= g.fist <= 1.0 && (|sorted| > 0 ==> 0.0 <= sorted[0].fist <= 1.0) ==>
            0.0 <= g'.fist <= 1.0)
  {
  }

  // ===================================================================
  // Pinch hysteresis
  // ===================================================================

  /** What the hysteresis sends to the particle field and the break mode. */
  datatype PinchSignal = Began(strength: real, at: Vec3) | Held(strength: real, at: Vec3) | Ended

  datatype PinchState = PinchState(pinching: bool, events: seq<PinchSignal>)

  /** The hysteresis of one frame on the smoothed strength `sm`: a start at
      ON from rest, an end at OFF while pinching, a hold otherwise while
      pinching; then with no hands in view a pinch still on is ended. */
  function PinchFrame(pinching: bool, sm: real, at: Vec3, noHands: bool): (r: PinchState)
    ensures !pinching && sm >= PinchOn ==> |r.events| > 0 && r.events[0] == Began(sm, at)
    ensures pinching && sm <= PinchOff ==> r == PinchState(false, [Ended])
    ensures pinching && sm > PinchOff ==> |r.events| > 0 && r.events[0] == Held(sm, at)
    ensures !pinching && sm < PinchOn ==> r == PinchState(false, [])
    ensures noHands ==> !r.pinching
    ensures !noHands ==> r.pinching == (if pinching then sm > PinchOff else sm >= PinchOn)
    ensures noHands && pinching && sm > PinchOff ==> r == PinchState(false, [Held(sm, at), Ended])
  {
    var first :=
      if !pinching && sm >= PinchOn then PinchState(true, [Began(sm, at)])
      else if pinching && sm <= PinchOff then PinchState(false, [Ended])
      else if pinching then PinchState(true, [Held(sm, at)])
      else PinchState(false, []);
    if noHands && first.pinching then PinchState(false, first.events + [Ended]) else first
  }

  /** The argument `onResults` passes to `pinchEvent` for a signal: a start
      or a hold with the smoothed strength and the pinch point, an end with
      neither. */
  function ParticleEventOf(sig: PinchSignal): Particles.PinchEvent
  {
    match sig
    case Began(s, at) => Particles.PinchEvent(Particles.Start, Some(s), Some(at))
    case Held(s, at) => Particles.PinchEvent(Particles.Hold, Some(s), Some(at))
    case Ended => Particles.PinchEvent(Particles.End, None, None)
  }

  /** The particle field reads back the strength the hysteresis sent, and
      the phase of every event is the signal's own. */
  lemma ParticleEventCarriesStrength(sig: PinchSignal)
    requires !sig.Ended? ==> 0.0 <= sig.strength <= 1.0
    ensures var ev := ParticleEventOf(sig);
      && (ev.phase == Particles.Start <==> sig.Began?)
      && (ev.phase == Particles.Hold <==> sig.Held?)
      && (ev.phase == Particles.End <==> sig.Ended?)
      && (!sig.Ended? ==> Particles.EventStrength(ev) == sig.strength && ev.worldPos == Some(sig.at))
  {
  }

  /** Starts come only from rest and ends only from a pinch, holds only
      during a pinch: the events of a run alternate start and end, from state
      `p` to state `p'`. */
  ghost predicate Alternates(p: bool, evs: seq<PinchSignal>, p': bool)
    decreases |evs|
  {
    if evs == [] then p == p'
    else match evs[0]
      case Began(_, _) => !p && Alternates(true, evs[1..], p')
      case Held(_, _) => p && Alternates(p, evs[1..], p')
      case Ended => p && Alternates(false, evs[1..], p')
  }

  lemma {:induction false} AlternatesConcat(p: bool, a: seq<PinchSignal>, q: bool, b: seq<PinchSignal>, r: bool)
    requires Alternates(p, a, q) && Alternates(q, b, r)
    ensures Alternates(p, a + b, r)
    decreases |a|
  {
    if a != [] {
      assert (a + b)[0] == a[0];
      assert (a + b)[1..] == a[1..] + b;
      match a[0]
      case Began(_, _) => AlternatesConcat(true, a[1..], q, b, r);
      case Held(_, _) => AlternatesConcat(p, a[1..], q, b, r);
      case Ended => AlternatesConcat(false, a[1..], q, b, r);
    } else {
      assert a + b == b;
    }
  }

  lemma FrameAlternates(pinching: bool, sm: real, at: Vec3, noHands: bool)
    ensures Alternates(pinching, PinchFrame(pinching, sm, at, noHands).events,
                       PinchFrame(pinching, sm, at, noHands).pinching)
  {
    var r := PinchFrame(pinching, sm, at, noHands);
    if |r.events| == 2 {
      assert r.events[1..] == [Ended];
      assert r.events[1..][1..] == [];
    } else if |r.events| == 1 {
      assert r.events[1..] == [];
    }
  }

  /** The input of one frame to the hysteresis: the best pinch strength, the
      pinch position, and whether no hand was seen. */
  datatype FrameInput = FrameInput(best: real, at: Vec3, noHands: bool)

  datatype Run = Run(pinching: bool, sm: real, events: seq<PinchSignal>)

  /** The hysteresis over a sequence of frames, from a state and a smoothed
      strength, with every event emitted on the way. */
  function RunFrames(pinching: bool, sm: real, inputs: seq<FrameInput>): Run
  {
    if inputs == [] then Run(pinching, sm, [])
    else
      var r := RunFrames(pinching, sm, inputs[..|inputs| - 1]);
      var last := inputs[|inputs| - 1];
      var sm' := Ema(r.sm, last.best, PinchSmooth);
      var f := PinchFrame(r.pinching, sm', last.at, last.noHands);
      Run(f.pinching, sm', r.events + f.events)
  }

  /** Over any run of frames the start and end events alternate, and the
      smoothed strength stays in [0, 1] while the best strengths do. */
  lemma {:induction false} RunAlternates(pinching: bool, sm: real, inputs: seq<FrameInput>)
    ensures Alternates(pinching, RunFrames(pinching, sm, inputs).events,
                       RunFrames(pinching, sm, inputs).pinching)
    ensures 0.0 <= sm <= 1.0 && (forall i :: 0 <= i < |inputs| ==> 0.0 <= inputs[i].best <= 1.0) ==>
      0.0 <= RunFrames(pinching, sm, inputs).sm <= 1.0
  {
    if inputs != [] {
      var n := |inputs| - 1;
      RunAlternates(pinching, sm, inputs[..n]);
      var r := RunFrames(pinching, sm, inputs[..n]);
      var sm' := Ema(r.sm, inputs[n].best, PinchSmooth);
      FrameAlternates(r.pinching, sm', inputs[n].at, inputs[n].noHands);
      var f := PinchFrame(r.pinching, sm', inputs[n].at, inputs[n].noHands);
      AlternatesConcat(pinching, r.events, r.pinching, f.events, f.pinching);
      forall i | 0 <= i < n ensures inputs[..n][i] == inputs[i] { }
    }
  }

  /** With no hand in view the best strength is 0, so from a smoothed
      strength in [0, 1] no pinch can start in that frame, and a pinch still
      on ends there. */
  lemma NoHandsEndsPinch(pinching: bool, sm: real, at: Vec3)
    requires 0.0 <= sm <= 1.0
    ensures var f := PinchFrame(pinching, Ema(sm, 0.0, PinchSmooth), at, true);
      && !f.pinching
      && (forall k :: 0 <= k < |f.events| ==> !f.events[k].Began?)
      && (pinching ==> |f.events| > 0 && f.events[|f.events| - 1] == Ended)
  {
  }

  /** A hold and an end in the same frame: a pinch at 0.9 that loses every
      hand decays to 0.675, above OFF, so it is held and then ended. */
  lemma HoldThenEnd(at: Vec3)
    ensures PinchFrame(true, Ema(0.9, 0.0, PinchSmooth), at, true)
      == PinchState(false, [Held(0.675, at), Ended])
  {
  }

  // ===================================================================
  // The tracker
  // ===================================================================

  const Origin: Vec3 := Vec3(0.0, 0.0, 0.0)
  const FreshSlot: Slot := Slot(Origin, Origin, Origin, 0.0, false)

  /** The frame time from the timestamps, clamped to [16 ms, 80 ms]. */
  function FrameTime(now: real, lastTS: real): (dt: real)
    ensures DtMin <= dt <= DtMax
  {
    Clamp((now - lastTS) / 1000.0, DtMin, DtMax)
  }

  /** The hand loop of `onResults`: every detected hand updates its slot
      and joins `local`, and the strictly strongest pinch is kept. */
  method ScanHands(s0: Slots, ds: seq<Detection>, dt: real, hypot: Vec3 -> real)
    returns (s: Slots, local: seq<Local>, best: real, bestWorld: Option<Vec3>)
    requires WellFormed(ds) && dt > 0.0
    ensures var r := Scan(s0, ds, dt); s == r.slots && local == r.local
    ensures Best(best, bestWorld) == BestPinch(ds, hypot)
  {
    s, local, best, bestWorld := s0, [], 0.0, None;
    var i := 0;
    while i < |ds|
      invariant 0 <= i <= |ds| && WellFormed(ds[..i])
      invariant Scan(s0, ds[..i], dt) == Scanned(s, local)
      invariant BestPinch(ds[..i], hypot) == Best(best, bestWorld)
    {
      assert ds[..i + 1][..i] == ds[..i];
      var d := ds[i];
      var lm := d.landmarks;
      s := s.Track(d, dt);
      local := local + [EntryOf(s, d)];
      var ps := StrengthOf(lm, hypot);
      if ps > best {
        best := ps;
        bestWorld := Some(PinchWorld(lm));
      }
      i := i + 1;
    }
    assert ds[..i] == ds;
  }

  /** What one call of `onResults` leaves behind. */
  datatype FrameOut = FrameOut(slots: Slots, influences: seq<Option<Influence>>, gesture: Gesture,
                               sm: real, pinch: PinchState)

  /** One frame of `onResults` on values: the hand slots lose their `seen`
      mark, every hand is tracked, the entries are sorted into the two
      influences and summarised, and the smoothed best pinch runs the
      hysteresis at the best pinch point (or at the right slot's position
      when no hand pinches at all). */
  function Frame(slots: Slots, gesture: Gesture, sm: real, pinching: bool, dt: real,
                 ds: seq<Detection>, hypot: Vec3 -> real): FrameOut
    requires WellFormed(ds) && dt > 0.0
  {
    var clean := Slots(slots.left.(seen := false), slots.right.(seen := false));
    var r := Scan(clean, ds, dt);
    var sorted := SortLocal(r.local);
    var inf := Influences(sorted);
    var b := BestPinch(ds, hypot);
    var sm' := Ema(sm, b.strength, PinchSmooth);
    var at := if b.world.Some? then b.world.value else r.slots.right.worldPos;
    FrameOut(r.slots, inf, GestureAfter(gesture, sorted, inf, hypot), sm',
             PinchFrame(pinching, sm', at, ds == []))
  }

  /** The frame computed imperatively: the hand loop, then the sort, the
      summary and the hysteresis on its results. */
  method Step(slots: Slots, gesture: Gesture, sm: real, pinching: bool, dt: real,
              ds: seq<Detection>, hypot: Vec3 -> real) returns (fo: FrameOut)
    requires WellFormed(ds) && dt > 0.0
    ensures fo == Frame(slots, gesture, sm, pinching, dt, ds, hypot)
  {
    var clean := Slots(slots.left.(seen := false), slots.right.(seen := false));
    var s, local, best, bestWorld := ScanHands(clean, ds, dt, hypot);
    var sorted := SortLocal(local);
    var inf := Influences(sorted);
    var sm' := Ema(sm, best, PinchSmooth);
    var at := if bestWorld.Some? then bestWorld.value else s.right.worldPos;
    fo := FrameOut(s, inf, GestureAfter(gesture, sorted, inf, hypot), sm', PinchFrame(pinching, sm', at, ds == []));
  }

  /** A frame keeps the tracker's ranges: two influences, the smoothed
      strength and the separation in [0, 1]. */
  lemma FrameKeepsRanges(slots: Slots, gesture: Gesture, sm: real, pinching: bool, dt: real,
                         ds: seq<Detection>, hypot: Vec3 -> real)
    requires WellFormed(ds) && dt > 0.0 && 0.0 <= sm <= 1.0 && 0.0 <= gesture.sep01 <= 1.0
    ensures var fo := Frame(slots, gesture, sm, pinching, dt, ds, hypot);
      && |fo.influences| == 2 && 0.0 <= fo.sm <= 1.0 && 0.0 <= fo.gesture.sep01 <= 1.0
  {
    var clean := Slots(slots.left.(seen := false), slots.right.(seen := false));
    var sorted := SortLocal(Scan(clean, ds, dt).local);
    GestureSummary(gesture, sorted, Influences(sorted), hypot);
  }

  /** A frame without hands: both slots are unseen and keep their
      positions, both influences are empty, `twoHands` is off, and a pinch
      still on ends without any new start. */
  lemma FrameWithoutHands(slots: Slots, gesture: Gesture, sm: real, pinching: bool, dt: real,
                          hypot: Vec3 -> real)
    requires dt > 0.0 && 0.0 <= sm <= 1.0
    ensures var fo := Frame(slots, gesture, sm, pinching, dt, [], hypot);
      && !fo.slots.left.seen && !fo.slots.right.seen
      && fo.slots.left.worldPos == slots.left.worldPos && fo.slots.right.worldPos == slots.right.worldPos
      && fo.influences == [None, None] && !fo.gesture.twoHands
      && !fo.pinch.pinching
      && (forall k :: 0 <= k < |fo.pinch.events| ==> !fo.pinch.events[k].Began?)
      && (pinching ==> |fo.pinch.events| > 0 && fo.pinch.events[|fo.pinch.events| - 1] == Ended)
  {
    NoHandsEndsPinch(pinching, sm, slots.right.worldPos);
  }

  /** The module state of `hands.js` that `onResults` updates. */
  class Tracker {
    var lastTS: real
    var slots: Slots
    var influences: seq<Option<Influence>>
    var gesture: Gesture
    var isPinching: bool
    var pinchStrengthSm: real

    ghost predicate Valid()
      reads this
    {
      && |influences| == 2
      && 0.0 <= pinchStrengthSm <= 1.0
      && 0.0 <= gesture.sep01 <= 1.0
    }

    /** The state at module load, `now` being `performance.now()` then. */
    constructor (now: real)
      ensures Valid() && lastTS == now && !isPinching && pinchStrengthSm == 0.0
      ensures slots == Slots(FreshSlot, FreshSlot) && influences == [None, None]
      ensures gesture == Gesture(0.0, 0.0, false, 0.0)
    {
      lastTS := now;
      slots := Slots(FreshSlot, FreshSlot);
      influences := [None, None];
      gesture := Gesture(0.0, 0.0, false, 0.0);
      isPinching := false;
      pinchStrengthSm := 0.0;
    }

    /** `onResults` without the preview drawing: the hand loop, the sort and
        the influences, the gesture summary, and the pinch hysteresis, whose
        events come back in the order they are sent. A frame without hands
        is an empty `ds`. */
    method OnResults(now: real, ds: seq<Detection>, hypot: Vec3 -> real)
      returns (events: seq<PinchSignal>)
      requires Valid() && WellFormed(ds)
      modifies this
      ensures Valid()
      ensures lastTS == now
      ensures var fr := Frame(old(slots), old(gesture), old(pinchStrengthSm), old(isPinching),
          FrameTime(now, old(lastTS)), ds, hypot);
        && slots == fr.slots && influences == fr.influences && gesture == fr.gesture
        && pinchStrengthSm == fr.sm && isPinching == fr.pinch.pinching && events == fr.pinch.events
    {
      var dt := FrameTime(now, lastTS);
      var fo := Step(slots, gesture, pinchStrengthSm, isPinching, dt, ds, hypot);
      FrameKeepsRanges(slots, gesture, pinchStrengthSm, isPinching, dt, ds, hypot);
      lastTS, slots, influences, gesture := now, fo.slots, fo.influences, fo.gesture;
      pinchStrengthSm, isPinching, events := fo.sm, fo.pinch.pinching, fo.pinch.events;
    }
  }
}
