/** The per-frame hand features `processGestures` derives from the 21 hand
    landmarks, and the gesture predicates it tests them against. Landmark
    geometry is abstracted: every distance arrives already measured. */
module Gestures {
  import opened Geometry

  /** Openness above which the hand counts as an open palm. */
  const PalmOpenThreshold: real := 0.35
  /** Gain from palm displacement to spin velocity. */
  const Sensitivity: real := 6.0

  /** Scalar features of one detected hand, in normalised image units.
      `index`..`pinky` are fingertip-to-wrist distances (landmarks 8, 12, 16,
      20 to 0); `palmSize` is wrist to middle-finger base (0 to 9);
      `pinchGap` is thumb tip to index tip (4 to 8); `tipSpread` is index tip
      to middle tip (8 to 12); `baseSpread` is index base to middle base
      (5 to 9); `palm` is landmark 9 itself. */
  datatype Features = Features(
    index: real, middle: real, ring: real, pinky: real,
    palmSize: real, pinchGap: real, tipSpread: real, baseSpread: real,
    palm: Point)

  /** Distances measured by `Math.hypot` are never negative. */
  predicate Measured(f: Features) {
    && f.index >= 0.0 && f.middle >= 0.0 && f.ring >= 0.0 && f.pinky >= 0.0
    && f.palmSize >= 0.0 && f.pinchGap >= 0.0 && f.tipSpread >= 0.0 && f.baseSpread >= 0.0
  }

  /** `avgSpread`: the mean fingertip distance. */
  function Openness(f: Features): real {
    (f.index + f.middle + f.ring + f.pinky) / 4.0
  }

  predicate PalmOpen(f: Features) {
    Openness(f) > PalmOpenThreshold
  }

  /** Thumb touching the index tip while the middle finger stands out. */
  predicate Pinch(f: Features) {
    f.pinchGap < 0.05 && f.middle > 0.15 && f.middle > f.index * 1.2
  }

  /** Index, middle and ring extended, pinky folded. */
  predicate ThreeFingers(f: Features) {
    && f.index > f.palmSize * 1.5
    && f.middle > f.palmSize * 1.5
    && f.ring > f.palmSize * 1.5
    && f.pinky < f.palmSize * 1.0
  }

  /** All four fingertips close to the wrist. */
  predicate Fist(f: Features) {
    && f.index < f.palmSize * 0.8
    && f.middle < f.palmSize * 0.8
    && f.ring < f.palmSize * 0.8
    && f.pinky < f.palmSize * 0.8
  }

  /** Index and middle raised and spread apart, ring and pinky low. */
  predicate VSign(f: Features) {
    && f.index > f.palmSize * 1.3 && f.middle > f.palmSize * 1.3
    && f.ring < f.index * 0.5 && f.pinky < f.middle * 0.5
    && f.tipSpread > f.baseSpread * 1.2
  }

  /** Index extended, middle and ring well below it. */
  predicate Pointing(f: Features) {
    f.index > 0.1 && f.middle < f.index * 0.7 && f.ring < f.index * 0.7
  }

  /** The three-finger and fist poses cannot hold together: the index
      distance would have to exceed 1.5 palms and stay under 0.8 palms. */
  lemma ThreeFingersExcludesFist(f: Features)
    requires Measured(f)
    ensures !(ThreeFingers(f) && Fist(f))
  {
  }

  /** An open palm has positive openness, so the scatter rule's division
      by the openness is defined. */
  lemma PalmOpenPositive(f: Features)
    ensures PalmOpen(f) ==> Openness(f) > 0.0
  {
  }

  /** A pinch and a pointing hand cannot coincide: the middle finger would
      have to be both above 1.2 and below 0.7 index lengths. */
  lemma PinchExcludesPointing(f: Features)
    ensures !(Pinch(f) && Pointing(f))
  {
  }

  /** The fist and the V-sign cannot coincide for measured distances: the
      index would have to be both below 0.8 and above 1.3 palm sizes. */
  lemma FistExcludesVSign(f: Features)
    requires Measured(f)
    ensures !(Fist(f) && VSign(f))
  {
  }
}
