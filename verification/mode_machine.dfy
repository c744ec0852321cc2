/** The interaction state of the scene and `processGestures`, which moves it
    one detected hand frame forward: a first-match-wins chain of gesture rules
    (pinch, three fingers, fist, V-sign, the NAME_MODE lock, pointing, open
    palm, rest) with early returns. Together with the letter open/close
    handlers, the theme switch and the two hand-absent updates of the
    animation loop, these are the only writers of the state. */
module ModeMachine {
  import opened Geometry
  import opened Gestures

  /** Milliseconds a pinch must wait after the last letter opening. */
  const LetterCooldown: int := 1000
  /** Milliseconds a V-sign must wait after the last theme toggle. */
  const ThemeCooldown: int := 2000
  /** Spin velocity bound per axis while scattering. */
  const MaxSpin: real := 3.0
  const MinScatter: real := 0.1
  const MaxScatter: real := 5.0

  datatype Mode = Tree | Scatter | Focus | Letter | Name

  /** `focusTarget`: nothing yet, the star on top of the tree, or the mesh of
      a photo particle. */
  datatype FocusTarget = NoTarget | Star | Mesh(id: nat)

  /** `gestureBaseSpread`: `null` until the first scatter anchor. */
  datatype Baseline = Unset | Spread(value: real)

  datatype Hand = Hand(detected: bool, x: real, y: real)

  /** The gesture-related part of `AppState`. */
  datatype AppState = AppState(
    mode: Mode,
    focus: FocusTarget,
    photoIndex: int,
    themeIndex: int,
    gestureTimer: int,
    letterTimer: int,
    scatterScale: real,
    baseline: Baseline,
    hand: Hand,
    spin: Point,
    wasPointing: bool,
    palmCenter: Point,
    hasPalmCenter: bool)

  const Initial: AppState := AppState(
    Tree, NoTarget, -1, 0, 0, 0, 1.0, Unset, Hand(false, 0.0, 0.0),
    Origin, false, Point(0.5, 0.5), false)

  predicate SpinBounded(v: Point) {
    -MaxSpin <= v.x <= MaxSpin && -MaxSpin <= v.y <= MaxSpin
  }

  predicate ScaleBounded(x: real) {
    MinScatter <= x <= MaxScatter
  }

  /** What every reachable state satisfies. */
  predicate Inv(s: AppState) {
    && (s.themeIndex == 0 || s.themeIndex == 1)
    && s.photoIndex >= -1
    && ScaleBounded(s.scatterScale)
    && SpinBounded(s.spin)
    && (s.hasPalmCenter ==> s.baseline.Spread? && s.baseline.value > PalmOpenThreshold)
    && (s.mode == Scatter ==> s.hasPalmCenter)
    && (s.mode == Focus || s.wasPointing ==> s.focus != NoTarget)
  }

  /** JavaScript's `%`, which truncates toward zero: the result takes the
      sign of the dividend. */
  function JsRem(a: int, m: int): (r: int)
    requires m > 0
    ensures a >= 0 ==> 0 <= r < m
    ensures a < 0 ==> -m < r <= 0
  {
    if a >= 0 then a % m else -((-a) % m)
  }

  /** `(currentThemeIndex + 1) % 2`. */
  function NextTheme(i: int): (r: int)
    ensures i >= -1 ==> r == 0 || r == 1
    ensures i == 0 || i == 1 ==> r == 1 - i
  {
    JsRem(i + 1, 2)
  }

  function Damp(v: Point, f: real): Point {
    Point(v.x * f, v.y * f)
  }

  lemma DampBounded(v: Point, f: real)
    requires 0.0 <= f <= 1.0
    ensures SpinBounded(v) ==> SpinBounded(Damp(v, f))
  {
    if SpinBounded(v) {
      DecayStaysIn(v.x, f, MaxSpin);
      DecayStaysIn(v.y, f, MaxSpin);
    }
  }

  /** `switchTheme`, state part: records the theme index (material and
      background swaps are rendering). */
  function SwitchTheme(s: AppState, themeIndex: int): (r: AppState)
    ensures r.themeIndex == themeIndex
    ensures r.(themeIndex := s.themeIndex) == s
  {
    s.(themeIndex := themeIndex)
  }

  /** `handleOpenLetterMode`, state part. */
  function OpenLetter(s: AppState): (r: AppState)
    ensures r.mode == Letter
    ensures s.mode == Letter ==> r == s
    ensures r.(mode := s.mode) == s
  {
    if s.mode == Letter then s else s.(mode := Letter)
  }

  /** `handleCloseLetterMode`: back to the tree, spin stopped. */
  function CloseLetter(s: AppState): (r: AppState)
    ensures r.mode == Tree && r.spin == Origin
    ensures r.(mode := s.mode, spin := s.spin) == s
  {
    s.(mode := Tree, spin := Origin)
  }

  /** A frame in which the detector saw no hand. */
  function LoseHand(s: AppState): (r: AppState)
    ensures !r.hand.detected
    ensures r.(hand := s.hand) == s && r.hand.x == s.hand.x && r.hand.y == s.hand.y
  {
    s.(hand := s.hand.(detected := false))
  }

  /** The animation loop's coasting: while scattering with no hand in view,
      the spin loses 5% per frame. */
  function CoastSpin(s: AppState): (r: AppState)
    ensures r.(spin := s.spin) == s
    ensures SpinBounded(s.spin) ==> SpinBounded(r.spin)
    ensures s.mode == Scatter && !s.hand.detected ==>
      r.spin.x == 0.95 * s.spin.x && r.spin.y == 0.95 * s.spin.y
    ensures s.mode == Scatter && !s.hand.detected ==>
      Abs(r.spin.x) <= Abs(s.spin.x) && Abs(r.spin.y) <= Abs(s.spin.y)
    ensures s.mode != Scatter || s.hand.detected ==> r == s
  {
    if s.mode == Scatter && !s.hand.detected then
      DampBounded(s.spin, 0.95);
      s.(spin := Damp(s.spin, 0.95))
    else s
  }

  // ---- The rules of processGestures, in priority order ----

  /** Rule 1, pinch: opens the letter unless one was opened within the last
      second; nothing else changes either way. */
  function PinchRule(s: AppState, now: int): (r: AppState)
    requires s.mode != Letter
    ensures r.mode == Letter <==> now - s.letterTimer > LetterCooldown
    ensures r.mode == Letter ==> r.letterTimer == now
    ensures r.mode != Letter ==> r == s
    ensures r.(mode := s.mode, letterTimer := s.letterTimer) == s
  {
    if now - s.letterTimer > LetterCooldown then OpenLetter(s.(letterTimer := now)) else s
  }

  /** Rule 2, three fingers: NAME_MODE; the spin is zeroed only on entry. */
  function ThreeFingerRule(s: AppState): (r: AppState)
    ensures r.mode == Name
    ensures s.mode != Name ==> r.spin == Origin
    ensures s.mode == Name ==> r == s
    ensures r.(mode := s.mode, spin := s.spin) == s
  {
    if s.mode != Name then s.(mode := Name, spin := Origin) else s
  }

  /** Rule 3, fist: back to the tree, but only from NAME_MODE or SCATTER. */
  function FistRule(s: AppState): (r: AppState)
    ensures r.mode != s.mode <==> s.mode == Name || s.mode == Scatter
    ensures r.mode != s.mode ==> r.mode == Tree
    ensures r.(mode := s.mode) == s
  {
    if s.mode == Name || s.mode == Scatter then s.(mode := Tree) else s
  }

  /** Rule 4, V-sign: toggles the theme and stamps the timer, at most once
      every two seconds. */
  function ThemeRule(s: AppState, now: int): (r: AppState)
    ensures now - s.gestureTimer > ThemeCooldown ==>
      r.themeIndex == NextTheme(s.themeIndex) && r.gestureTimer == now
    ensures now - s.gestureTimer <= ThemeCooldown ==> r == s
    ensures r.(themeIndex := s.themeIndex, gestureTimer := s.gestureTimer) == s
  {
    if now - s.gestureTimer > ThemeCooldown then
      SwitchTheme(s, NextTheme(s.themeIndex)).(gestureTimer := now)
    else s
  }

  /** The photo cursor on a rising pointing edge: step to the next photo,
      or to the star once the photos run out, which also resets the cursor. */
  function AdvanceCursor(index: int, photos: seq<nat>): (r: (int, FocusTarget))
    requires index >= -1
    ensures -1 <= r.0 < |photos|
    ensures r.0 >= 0 <==> index + 1 < |photos|
    ensures r.0 >= 0 ==> r.0 == index + 1 && r.1 == Mesh(photos[r.0])
    ensures r.0 < 0 ==> r.1 == Star
  {
    var next := index + 1;
    if next < |photos| then (next, Mesh(photos[next])) else (-1, Star)
  }

  /** Rule 6, pointing: FOCUS. The cursor moves only when the finger was not
      pointing on the previous frame; the palm anchor is dropped and the spin
      damped by 10%. */
  function PointRule(s: AppState, photos: seq<nat>): (r: AppState)
    requires s.photoIndex >= -1
    ensures r.mode == Focus && r.wasPointing && !r.hasPalmCenter
    ensures s.wasPointing ==> r.focus == s.focus && r.photoIndex == s.photoIndex
    ensures !s.wasPointing ==> (r.photoIndex, r.focus) == AdvanceCursor(s.photoIndex, photos)
    ensures r.focus != NoTarget || (s.wasPointing && s.focus == NoTarget)
    ensures r.spin == Damp(s.spin, 0.9)
    ensures SpinBounded(s.spin) ==> SpinBounded(r.spin)
    ensures r.(mode := s.mode, focus := s.focus, photoIndex := s.photoIndex, wasPointing := s.wasPointing,
               hasPalmCenter := s.hasPalmCenter, spin := s.spin) == s
  {
    DampBounded(s.spin, 0.9);
    var cursor := if s.wasPointing then (s.photoIndex, s.focus) else AdvanceCursor(s.photoIndex, photos);
    s.(mode := Focus, photoIndex := cursor.0, focus := cursor.1, wasPointing := true,
       hasPalmCenter := false, spin := Damp(s.spin, 0.9))
  }

  /** Whether the open-palm rule takes a fresh anchor this frame. */
  predicate Anchors(s: AppState) {
    s.mode != Scatter || !s.hasPalmCenter
  }

  /** `clamp((base / avg)^2, 0.1, 5.0)`: the scatter scale the hand asks for. */
  function ScaleGoal(base: real, avg: real): (r: real)
    requires avg > 0.0
    ensures ScaleBounded(r)
    ensures ScaleBounded((base / avg) * (base / avg)) ==> r == (base / avg) * (base / avg)
    ensures (base / avg) * (base / avg) > MaxScatter ==> r == MaxScatter
    ensures (base / avg) * (base / avg) < MinScatter ==> r == MinScatter
  {
    Clamp((base / avg) * (base / avg), MinScatter, MaxScatter)
  }

  /** The spin one axis of palm displacement asks for. */
  function SpinGoal(offset: real): (r: real)
    ensures -MaxSpin <= r <= MaxSpin
    ensures -MaxSpin <= offset * Sensitivity <= MaxSpin ==> r == offset * Sensitivity
    ensures offset * Sensitivity > MaxSpin ==> r == MaxSpin
    ensures offset * Sensitivity < -MaxSpin ==> r == -MaxSpin
  {
    Clamp(offset * Sensitivity, -MaxSpin, MaxSpin)
  }

  /** Rule 7, open palm: SCATTER. On entry (or with no anchor) it records the
      palm position and openness and resets the scale to 1; then the scale
      moves 15% of the way to the clamped goal and the spin 20% of the way to
      the clamped displacement. */
  function ScatterRule(s: AppState, f: Features): (r: AppState)
    requires PalmOpen(f)
    ensures r.mode == Scatter && r.hasPalmCenter
    ensures Anchors(s) ==> r.palmCenter == f.palm && r.baseline == Spread(Openness(f))
    ensures !Anchors(s) ==> r.palmCenter == s.palmCenter && r.baseline == s.baseline
    ensures Anchors(s) || ScaleBounded(s.scatterScale) ==> ScaleBounded(r.scatterScale)
    ensures SpinBounded(s.spin) ==> SpinBounded(r.spin)
    // each spin axis moves 20% of the way to its clamped goal: x from the
    // palm's upward displacement, y from its rightward displacement
    ensures r.spin.x - SpinGoal(r.palmCenter.y - f.palm.y) == 0.8 * (s.spin.x - SpinGoal(r.palmCenter.y - f.palm.y))
    ensures r.spin.y - SpinGoal(f.palm.x - r.palmCenter.x) == 0.8 * (s.spin.y - SpinGoal(f.palm.x - r.palmCenter.x))
    ensures r.baseline.Spread? && r.baseline.value != 0.0 ==>
      r.scatterScale - ScaleGoal(r.baseline.value, Openness(f))
        == 0.85 * ((if Anchors(s) then 1.0 else s.scatterScale) - ScaleGoal(r.baseline.value, Openness(f)))
    ensures r.(mode := s.mode, palmCenter := s.palmCenter, hasPalmCenter := s.hasPalmCenter,
               baseline := s.baseline, scatterScale := s.scatterScale, spin := s.spin) == s
  {
    var a := if Anchors(s) then
               s.(palmCenter := f.palm, hasPalmCenter := true, baseline := Spread(Openness(f)), scatterScale := 1.0)
             else s;
    var scale :=
      if a.baseline.Spread? && a.baseline.value != 0.0 then
        PalmOpenPositive(f);
        var goal := ScaleGoal(a.baseline.value, Openness(f));
        ApproachBetween(a.scatterScale, goal, 0.15);
        Approach(a.scatterScale, goal, 0.15)
      else a.scatterScale;
    var dx := f.palm.x - a.palmCenter.x;
    var dy := f.palm.y - a.palmCenter.y;
    var gx, gy := SpinGoal(-dy), SpinGoal(dx);
    assert -dy == a.palmCenter.y - f.palm.y;
    ApproachBetween(a.spin.x, gx, 0.2);
    ApproachBetween(a.spin.y, gy, 0.2);
    var spin := Point(Approach(a.spin.x, gx, 0.2), Approach(a.spin.y, gy, 0.2));
    a.(mode := Scatter, scatterScale := scale, spin := spin)
  }

  /** Rule 8, no gesture: back to the tree (NAME_MODE excepted), anchor
      dropped, scale reset, spin damped by 10%. */
  function RestRule(s: AppState): (r: AppState)
    ensures s.mode == Name ==> r == s
    ensures s.mode != Name ==>
      r.mode == Tree && !r.hasPalmCenter && r.scatterScale == 1.0 && r.spin == Damp(s.spin, 0.9)
    ensures SpinBounded(s.spin) ==> SpinBounded(r.spin)
    ensures r.(mode := s.mode, hasPalmCenter := s.hasPalmCenter, scatterScale := s.scatterScale, spin := s.spin) == s
  {
    DampBounded(s.spin, 0.9);
    if s.mode != Name then
      s.(mode := Tree, hasPalmCenter := false, scatterScale := 1.0, spin := Damp(s.spin, 0.9))
    else s
  }

  /** Rules 6 to 8: pointing, else open palm, else rest. */
  function MotionRule(s: AppState, f: Features, photos: seq<nat>): (r: AppState)
    requires s.photoIndex >= -1
    requires s.mode != Name || PalmOpen(f)
    ensures r.mode == (if Pointing(f) then Focus else if PalmOpen(f) then Scatter else if s.mode == Name then Name else Tree)
    ensures r.mode != Letter && (r.mode == Name ==> s.mode == Name)
    ensures r.wasPointing <==> Pointing(f)
  {
    if Pointing(f) then PointRule(s, photos)
    else
      var s1 := s.(wasPointing := false);
      if PalmOpen(f) then ScatterRule(s1, f) else RestRule(s1)
  }

  /** Outside FOCUS and NAME_MODE the smoothed hand position follows the
      palm, 10% per frame. */
  function TrackHand(s: AppState, f: Features): (r: AppState)
    ensures r.(hand := s.hand) == s && r.hand.detected == s.hand.detected
    ensures s.mode == Focus || s.mode == Name ==> r == s
    ensures s.mode != Focus && s.mode != Name ==>
      && r.hand.x - (f.palm.x - 0.5) * 3.0 == 0.9 * (s.hand.x - (f.palm.x - 0.5) * 3.0)
      && r.hand.y - (f.palm.y - 0.5) * 3.0 == 0.9 * (s.hand.y - (f.palm.y - 0.5) * 3.0)
  {
    if s.mode != Focus && s.mode != Name then
      s.(hand := s.hand.(x := Approach(s.hand.x, (f.palm.x - 0.5) * 3.0, 0.1),
                         y := Approach(s.hand.y, (f.palm.y - 0.5) * 3.0, 0.1)))
    else s
  }

  /** Rules 1 to 3 fire before the V-sign is looked at. */
  predicate Preempted(f: Features) {
    Pinch(f) || ThreeFingers(f) || Fist(f)
  }

  /** Rules 4 to 8, reached when no pinch, three fingers or fist was seen:
      the V-sign toggle, then the NAME_MODE lock, then the motion rules. */
  function GestureTail(s: AppState, f: Features, now: int, photos: seq<nat>): (r: AppState)
    requires s.mode != Letter && s.photoIndex >= -1
    ensures r.mode != Letter && r.letterTimer == s.letterTimer && r.hand.detected == s.hand.detected
    // V-sign: the only way the theme and its timer change, gated by the cooldown
    ensures VSign(f) && now - s.gestureTimer > ThemeCooldown ==>
      r.themeIndex == NextTheme(s.themeIndex) && r.gestureTimer == now
    ensures r.gestureTimer != s.gestureTimer || r.themeIndex != s.themeIndex ==>
      && VSign(f) && now - s.gestureTimer > ThemeCooldown
      && r.gestureTimer == now && r.themeIndex == NextTheme(s.themeIndex)
    // past the lock, the motion rules decide the mode
    ensures !(s.mode == Name && !PalmOpen(f)) ==>
      r.mode == (if Pointing(f) then Focus else if PalmOpen(f) then Scatter else Tree)
    // NAME_MODE holds unless the palm opens; only the theme toggle gets through
    ensures s.mode == Name && !PalmOpen(f) ==>
      r.(themeIndex := s.themeIndex, gestureTimer := s.gestureTimer) == s
    // the photo cursor stays in range and moves only on a rising pointing edge
    ensures r.photoIndex >= -1
    ensures r.photoIndex != s.photoIndex ==> r.photoIndex < |photos|
    ensures r.photoIndex != s.photoIndex || r.focus != s.focus ==>
      Pointing(f) && !s.wasPointing && r.mode == Focus
    ensures r.mode == Focus && s.mode != Focus ==> Pointing(f)
    // the open palm anchors only on entry into SCATTER
    ensures r.mode == Scatter && s.mode != Scatter ==>
      r.palmCenter == f.palm && r.baseline == Spread(Openness(f)) && r.hasPalmCenter
    ensures !Anchors(s) ==> r.palmCenter == s.palmCenter && r.baseline == s.baseline
    // smoothed quantities stay in their ranges
    ensures ScaleBounded(s.scatterScale) ==> ScaleBounded(r.scatterScale)
    ensures SpinBounded(s.spin) ==> SpinBounded(r.spin)
  {
    var s1 := if VSign(f) then ThemeRule(s, now) else s;
    if s1.mode == Name && !PalmOpen(f) then s1
    else TrackHand(MotionRule(s1, f, photos), f)
  }

  /** The frame's state with the hand marked as seen, which every rule
      starts from. */
  function Seen(s: AppState): AppState {
    s.(hand := s.hand.(detected := true))
  }

  /** `processGestures` on one detected hand at time `now`; `photos` are the
      meshes of the photo particles in creation order. The rule-by-rule
      promises are the lemmas that follow. */
  function ProcessGestures(s: AppState, f: Features, now: int, photos: seq<nat>): (r: AppState)
    requires s.photoIndex >= -1
    // LETTER ignores every gesture
    ensures s.mode == Letter ==> r == s
    ensures s.mode != Letter ==> r.hand.detected
    // only a pinch past its cooldown opens the letter, and stamps its timer
    ensures r.mode == Letter ==> s.mode == Letter || (Pinch(f) && now - s.letterTimer > LetterCooldown)
    ensures r.letterTimer != s.letterTimer ==> r.letterTimer == now && r.mode == Letter
    // only a V-sign past its cooldown toggles the theme, and stamps its timer
    ensures r.gestureTimer != s.gestureTimer || r.themeIndex != s.themeIndex ==>
      && VSign(f) && now - s.gestureTimer > ThemeCooldown
      && r.gestureTimer == now && r.themeIndex == NextTheme(s.themeIndex)
    // the photo cursor stays in range and moves only on a rising pointing edge
    ensures r.photoIndex >= -1
    ensures r.photoIndex != s.photoIndex ==> r.photoIndex < |photos|
    ensures r.photoIndex != s.photoIndex || r.focus != s.focus ==>
      Pointing(f) && !s.wasPointing && r.mode == Focus
    ensures r.mode == Focus && s.mode != Focus ==> Pointing(f)
    // an anchored scatter keeps its anchor
    ensures !Anchors(s) ==> r.palmCenter == s.palmCenter && r.baseline == s.baseline
    // smoothed quantities stay in their ranges
    ensures ScaleBounded(s.scatterScale) ==> ScaleBounded(r.scatterScale)
    ensures SpinBounded(s.spin) ==> SpinBounded(r.spin)
  {
    if s.mode == Letter then s
    else
      var s0 := Seen(s);
      if Pinch(f) then PinchRule(s0, now)
      else if ThreeFingers(f) then ThreeFingerRule(s0)
      else if Fist(f) then FistRule(s0)
      else GestureTail(s0, f, now, photos)
  }

  /** A pinch opens the letter exactly when the cooldown has run out; no
      later rule runs that frame, so nothing else changes. */
  lemma PinchIsOneShot(s: AppState, f: Features, now: int, photos: seq<nat>)
    requires s.photoIndex >= -1 && s.mode != Letter && Pinch(f)
    ensures var r := ProcessGestures(s, f, now, photos);
      && (r.mode == Letter <==> now - s.letterTimer > LetterCooldown)
      && (r.mode == Letter ==> r.letterTimer == now)
      && (r.mode != Letter ==> r == Seen(s))
      && r.(mode := s.mode, letterTimer := s.letterTimer) == Seen(s)
  {
  }

  /** Three fingers select NAME_MODE; the spin is zeroed only on entry. */
  lemma ThreeFingersEnterName(s: AppState, f: Features, now: int, photos: seq<nat>)
    requires s.photoIndex >= -1 && s.mode != Letter && !Pinch(f) && ThreeFingers(f)
    ensures var r := ProcessGestures(s, f, now, photos);
      && r.mode == Name
      && r.spin == (if s.mode == Name then s.spin else Origin)
      && r.(mode := s.mode, spin := s.spin) == Seen(s)
  {
  }

  /** A fist returns to the tree from NAME_MODE or SCATTER and does nothing
      in TREE or FOCUS; either way the frame ends there. */
  lemma FistReturnsToTree(s: AppState, f: Features, now: int, photos: seq<nat>)
    requires s.photoIndex >= -1 && s.mode != Letter && !Pinch(f) && !ThreeFingers(f) && Fist(f)
    ensures var r := ProcessGestures(s, f, now, photos);
      && (r.mode == Tree <==> s.mode == Name || s.mode == Scatter || s.mode == Tree)
      && (s.mode == Focus ==> r.mode == Focus)
      && r.(mode := s.mode) == Seen(s)
  {
  }

  /** A V-sign past the cooldown toggles the theme even in NAME_MODE, where
      the mode itself stays put unless the palm is open. */
  lemma VSignToggles(s: AppState, f: Features, now: int, photos: seq<nat>)
    requires s.photoIndex >= -1 && s.mode != Letter && !Preempted(f) && VSign(f)
    requires now - s.gestureTimer > ThemeCooldown
    ensures var r := ProcessGestures(s, f, now, photos);
      && r.themeIndex == NextTheme(s.themeIndex) && r.gestureTimer == now
      && (s.mode == Name && !PalmOpen(f) ==> r.mode == Name)
  {
  }

  /** NAME_MODE holds while the palm stays closed: apart from a theme toggle
      nothing changes. */
  lemma NameModeLocks(s: AppState, f: Features, now: int, photos: seq<nat>)
    requires s.photoIndex >= -1 && s.mode == Name && !Preempted(f) && !PalmOpen(f)
    ensures var r := ProcessGestures(s, f, now, photos);
      r.(themeIndex := s.themeIndex, gestureTimer := s.gestureTimer) == Seen(s)
  {
  }

  /** Entering SCATTER anchors the palm, the baseline openness and a unit
      scale. */
  lemma ScatterAnchorsOnEntry(s: AppState, f: Features, now: int, photos: seq<nat>)
    requires s.photoIndex >= -1
    ensures var r := ProcessGestures(s, f, now, photos);
      r.mode == Scatter && s.mode != Scatter ==>
        r.palmCenter == f.palm && r.baseline == Spread(Openness(f)) && r.hasPalmCenter
  {
  }

  /** An open palm that is not pointing, past the earlier rules, ends the
      frame in SCATTER with an anchor; the scale has moved 15% and each spin
      axis 20% of the way to its clamped goal, and the hand point 10% of the
      way to the palm. */
  lemma OpenPalmScatters(s: AppState, f: Features, now: int, photos: seq<nat>)
    requires s.photoIndex >= -1 && s.mode != Letter && !Preempted(f) && !Pointing(f) && PalmOpen(f)
    ensures var r := ProcessGestures(s, f, now, photos);
      && r.mode == Scatter && r.hasPalmCenter && !r.wasPointing
      && (Anchors(s) ==> r.palmCenter == f.palm && r.baseline == Spread(Openness(f)))
      && r.spin.x - SpinGoal(r.palmCenter.y - f.palm.y) == 0.8 * (s.spin.x - SpinGoal(r.palmCenter.y - f.palm.y))
      && r.spin.y - SpinGoal(f.palm.x - r.palmCenter.x) == 0.8 * (s.spin.y - SpinGoal(f.palm.x - r.palmCenter.x))
      && (Anchors(s) || (s.baseline.Spread? && s.baseline.value != 0.0) ==>
            r.scatterScale - ScaleGoal(r.baseline.value, Openness(f))
              == 0.85 * ((if Anchors(s) then 1.0 else s.scatterScale) - ScaleGoal(r.baseline.value, Openness(f))))
      && r.hand.x - (f.palm.x - 0.5) * 3.0 == 0.9 * (s.hand.x - (f.palm.x - 0.5) * 3.0)
      && r.hand.y - (f.palm.y - 0.5) * 3.0 == 0.9 * (s.hand.y - (f.palm.y - 0.5) * 3.0)
  {
  }

  /** A neutral hand outside NAME_MODE returns to the tree: the anchor is
      dropped, the scale reset to 1, the spin damped by 10% and the hand
      point moved 10% of the way to the palm. */
  lemma RestReturnsToTree(s: AppState, f: Features, now: int, photos: seq<nat>)
    requires s.photoIndex >= -1 && s.mode != Letter && s.mode != Name
    requires !Preempted(f) && !Pointing(f) && !PalmOpen(f)
    ensures var r := ProcessGestures(s, f, now, photos);
      && r.mode == Tree && !r.hasPalmCenter && !r.wasPointing
      && r.scatterScale == 1.0 && r.spin == Damp(s.spin, 0.9)
      && r.hand.x - (f.palm.x - 0.5) * 3.0 == 0.9 * (s.hand.x - (f.palm.x - 0.5) * 3.0)
      && r.hand.y - (f.palm.y - 0.5) * 3.0 == 0.9 * (s.hand.y - (f.palm.y - 0.5) * 3.0)
  {
  }
}
