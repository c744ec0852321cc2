/** `Particle.update`: for one particle and one animation frame, which point it
    heads for, how fast, and which scale it grows or shrinks toward, followed
    by one smoothing step of position and scale. The trigonometric idle jitter
    and the dust pulse are passed in as already-evaluated values. */
module Formation {
  import opened Geometry
  import opened ModeMachine

  /** The particle `type` strings used at creation time. */
  datatype Kind = Box | GoldBox | GoldSphere | Red | Cane | Gift | Bear | Photo | Dust

  /** One particle: the mesh it drives, its kind, the scale it was created
      with, its three stored layouts, its glyph membership, and the mesh's
      current position and scale. `isDust` is exactly `kind == Dust` at every
      creation site, so it is not stored separately. */
  datatype Particle = Particle(
    mesh: nat,
    kind: Kind,
    baseScale: real,
    posTree: Vec3,
    posScatter: Vec3,
    posText: Vec3,
    isText: bool,
    position: Vec3,
    scale: Vec3)

  /** The inverse world matrix handed to `update`, which may be `null`; when
      present it has already placed the point 15 units in front of the
      camera. */
  datatype Lock = NoLock | Locked(at: Vec3)

  /** What the animation loop passes to every particle in one frame. */
  datatype Frame = Frame(dt: real, mode: Mode, focus: FocusTarget, lock: Lock, scatterScale: real)

  /** Where a particle is headed and the smoothing rate per second. */
  datatype Goal = Goal(at: Vec3, rate: real)

  /** The particle FOCUS puts in front of the camera: its mesh is the focus
      target and an inverse matrix is available. */
  predicate Focused(p: Particle, fr: Frame) {
    fr.mode == Focus && fr.focus == Mesh(p.mesh) && fr.lock.Locked?
  }

  /** The formations in which the idle jitter is added: the tree, and the
      glyph for its members. */
  predicate Settled(p: Particle, mode: Mode) {
    mode == Tree || (mode == Name && p.isText)
  }

  /** The target point and rate chosen by mode. Apart from the focused
      particle and the scaled scatter sphere, a particle only ever heads for
      one of its stored layouts; the focused particle moves fastest. */
  function Resolve(p: Particle, fr: Frame): (r: Goal)
    ensures Focused(p, fr) <==> r.rate == 6.0
    ensures Focused(p, fr) ==> r.at == fr.lock.at
    ensures fr.mode == Scatter <==> r.rate == 5.0
    ensures fr.mode == Scatter ==> r.at == ScaleVec(p.posScatter, fr.scatterScale)
    ensures fr.mode == Name <==> r.rate == 4.0
    ensures fr.mode == Name ==> r.at == p.posText
    ensures r.rate == 3.0 ==> r.at == (if fr.mode == Tree then p.posTree else p.posScatter)
    ensures fr.mode == Tree ==> r == Goal(p.posTree, 3.0)
    ensures fr.mode == Letter ==> r == Goal(p.posScatter, 3.0)
    ensures fr.mode == Focus && !Focused(p, fr) ==> r == Goal(p.posScatter, 3.0)
  {
    match fr.mode
    case Scatter => Goal(ScaleVec(p.posScatter, fr.scatterScale), 5.0)
    case Letter => Goal(p.posScatter, 3.0)
    case Name => Goal(p.posText, 4.0)
    case Focus => if Focused(p, fr) then Goal(fr.lock.at, 6.0) else Goal(p.posScatter, 3.0)
    case Tree => Goal(p.posTree, 3.0)
  }

  /** The point the position is actually lerped toward: the goal, plus the
      jitter offset while settled. */
  function Aim(p: Particle, fr: Frame, jitter: Vec3): (r: Vec3)
    ensures Settled(p, fr.mode) ==> r == AddVec(Resolve(p, fr).at, jitter)
    ensures !Settled(p, fr.mode) ==> r == Resolve(p, fr).at
  {
    var g := Resolve(p, fr).at;
    if Settled(p, fr.mode) then AddVec(g, jitter) else g
  }

  /** The scale target as the code has it. It starts from `baseScale`;
      NAME_MODE sets 2.5 times that for glyph members and 0 for the rest;
      FOCUS sets 5 times it for the focused particle and 0.01 for the rest.
      Then come the closing overrides outside FOCUS: dust pulses
      with `wave` (the sine of time and phase); photos are enlarged while
      dispersed; gifts and bears get `baseScale`, 1.2 times that in
      SCATTER. In NAME_MODE these overrides replace the zero scale just chosen
      for gifts and bears that are not glyph members. */
  function ScaleTargetAsWritten(p: Particle, fr: Frame, wave: real): (r: real)
    ensures fr.mode == Focus ==> r == (if Focused(p, fr) then 5.0 * p.baseScale else 0.01)
    ensures fr.mode == Name && p.kind != Dust && p.kind != Gift && p.kind != Bear ==>
      r == (if p.isText then 2.5 * p.baseScale else 0.0)
    ensures fr.mode == Name && (p.kind == Gift || p.kind == Bear) ==> r == p.baseScale
    ensures fr.mode != Focus && p.kind == Dust ==> r == Pulse(p.baseScale, wave)
    ensures (fr.mode == Scatter || fr.mode == Letter) && p.kind == Photo ==> r == 2.5 * p.baseScale
    ensures fr.mode != Focus && (p.kind == Gift || p.kind == Bear) ==>
      r == (if fr.mode == Scatter then 1.2 * p.baseScale else p.baseScale)
    ensures fr.mode != Focus && fr.mode != Name && !(p.kind in {Dust, Gift, Bear}) ==>
      r == (if (fr.mode == Scatter || fr.mode == Letter) && p.kind == Photo then 2.5 * p.baseScale else p.baseScale)
  {
    if fr.mode == Focus then (if Focused(p, fr) then p.baseScale * 5.0 else 0.01)
    else if p.kind == Dust then Pulse(p.baseScale, wave)
    else if (fr.mode == Scatter || fr.mode == Letter) && p.kind == Photo then p.baseScale * 2.5
    else if p.kind == Gift || p.kind == Bear then
      (if fr.mode == Scatter then p.baseScale * 1.2 else p.baseScale)
    else if fr.mode == Name then (if p.isText then p.baseScale * 2.5 else 0.0)
    else p.baseScale
  }

  /** The scale target with the gift/bear override confined to the modes it
      was written for, so that in NAME_MODE gifts and bears vanish or join
      the glyph like every other ornament. Dust keeps pulsing in every mode
      but FOCUS. */
  function ScaleTarget(p: Particle, fr: Frame, wave: real): (r: real)
    ensures fr.mode == Name && p.kind != Dust ==> r == (if p.isText then 2.5 * p.baseScale else 0.0)
    ensures fr.mode == Focus ==> r == (if Focused(p, fr) then 5.0 * p.baseScale else 0.01)
    ensures fr.mode != Focus && p.kind == Dust ==> r == Pulse(p.baseScale, wave)
    ensures (fr.mode == Scatter || fr.mode == Letter) && p.kind == Photo ==> r == 2.5 * p.baseScale
    ensures fr.mode != Focus && fr.mode != Name && (p.kind == Gift || p.kind == Bear) ==>
      r == (if fr.mode == Scatter then 1.2 * p.baseScale else p.baseScale)
    ensures fr.mode != Focus && fr.mode != Name && !(p.kind in {Dust, Gift, Bear}) ==>
      r == (if (fr.mode == Scatter || fr.mode == Letter) && p.kind == Photo then 2.5 * p.baseScale else p.baseScale)
    ensures p.baseScale >= 0.0 && -1.0 <= wave <= 1.0 ==> r >= 0.0
    ensures p.baseScale >= 0.0 && -1.0 <= wave <= 1.0 && fr.mode != Focus ==> r <= 2.5 * p.baseScale
  {
    if fr.mode == Focus then (if Focused(p, fr) then p.baseScale * 5.0 else 0.01)
    else if p.kind == Dust then Pulse(p.baseScale, wave)
    else if (fr.mode == Scatter || fr.mode == Letter) && p.kind == Photo then p.baseScale * 2.5
    else if (p.kind == Gift || p.kind == Bear) && fr.mode != Name then
      (if fr.mode == Scatter then p.baseScale * 1.2 else p.baseScale)
    else if fr.mode == Name then (if p.isText then p.baseScale * 2.5 else 0.0)
    else p.baseScale
  }

  /** The dust pulse `baseScale * (0.5 + 0.5 * wave)`, where `wave` is a
      sine value: it swings between zero and the base scale. */
  function Pulse(base: real, wave: real): (r: real)
    ensures base >= 0.0 && -1.0 <= wave <= 1.0 ==> 0.0 <= r <= base
  {
    var w := 0.5 + 0.5 * wave;
    assert base >= 0.0 && -1.0 <= wave <= 1.0 ==> base * w <= base * 1.0;
    base * w
  }

  /** The two scale targets differ only for a gift or bear in NAME_MODE. */
  lemma ScaleTargetsAgree(p: Particle, fr: Frame, wave: real)
    ensures ScaleTargetAsWritten(p, fr, wave) != ScaleTarget(p, fr, wave) ==>
      fr.mode == Name && (p.kind == Gift || p.kind == Bear)
  {
  }

  /** A gift that is not part of the glyph stays at its full size in
      NAME_MODE as the code is written, although it was meant to vanish. */
  lemma GiftStaysVisibleInName()
    ensures var p := Particle(0, Gift, 0.6, Vec3(0.0, 0.0, 0.0), Vec3(0.0, 0.0, 0.0), Vec3(0.0, 0.0, 0.0),
                              false, Vec3(0.0, 0.0, 0.0), Vec3(0.6, 0.6, 0.6));
            var fr := Frame(0.016, Name, NoTarget, NoLock, 1.0);
            ScaleTargetAsWritten(p, fr, 0.0) == 0.6 && ScaleTarget(p, fr, 0.0) == 0.0
  {
  }

  /** One smoothing step toward the aim and toward the uniform scale
      target `st`: the position moves `rate * dt` of the way, the scale
      `5 * dt`; nothing else about the particle changes. */
  function Step(p: Particle, fr: Frame, jitter: Vec3, st: real): (r: Particle)
    ensures r.(position := p.position, scale := p.scale) == p
    ensures 0.0 <= Resolve(p, fr).rate * fr.dt <= 1.0 ==>
      var a := Aim(p, fr, jitter);
      Within(r.position.x, p.position.x, a.x) && Within(r.position.y, p.position.y, a.y)
      && Within(r.position.z, p.position.z, a.z)
    ensures 0.0 <= 5.0 * fr.dt <= 1.0 ==>
      Within(r.scale.x, p.scale.x, st) && Within(r.scale.y, p.scale.y, st) && Within(r.scale.z, p.scale.z, st)
    // each position coordinate keeps `1 - rate * dt` of its gap to the aim,
    // each scale coordinate `1 - 5 dt` of its gap to the target
    ensures var a, k := Aim(p, fr, jitter), Resolve(p, fr).rate * fr.dt;
      && r.position.x - a.x == (1.0 - k) * (p.position.x - a.x)
      && r.position.y - a.y == (1.0 - k) * (p.position.y - a.y)
      && r.position.z - a.z == (1.0 - k) * (p.position.z - a.z)
    ensures && r.scale.x - st == (1.0 - 5.0 * fr.dt) * (p.scale.x - st)
            && r.scale.y - st == (1.0 - 5.0 * fr.dt) * (p.scale.y - st)
            && r.scale.z - st == (1.0 - 5.0 * fr.dt) * (p.scale.z - st)
  {
    p.(position := Lerp(p.position, Aim(p, fr, jitter), Resolve(p, fr).rate * fr.dt),
       scale := Lerp(p.scale, Vec3(st, st, st), 5.0 * fr.dt))
  }

  /** One animation frame as the code has it: the scale heads for
      `ScaleTargetAsWritten`, so a gift or bear off the glyph keeps its size
      in NAME_MODE. */
  function Update(p: Particle, fr: Frame, jitter: Vec3, wave: real): (r: Particle)
    ensures r.(position := p.position, scale := p.scale) == p
    ensures 0.0 <= Resolve(p, fr).rate * fr.dt <= 1.0 ==>
      var a := Aim(p, fr, jitter);
      Within(r.position.x, p.position.x, a.x) && Within(r.position.y, p.position.y, a.y)
      && Within(r.position.z, p.position.z, a.z)
    ensures 0.0 <= 5.0 * fr.dt <= 1.0 ==>
      var s := ScaleTargetAsWritten(p, fr, wave);
      Within(r.scale.x, p.scale.x, s) && Within(r.scale.y, p.scale.y, s) && Within(r.scale.z, p.scale.z, s)
    ensures var a, k := Aim(p, fr, jitter), Resolve(p, fr).rate * fr.dt;
      && r.position.x - a.x == (1.0 - k) * (p.position.x - a.x)
      && r.position.y - a.y == (1.0 - k) * (p.position.y - a.y)
      && r.position.z - a.z == (1.0 - k) * (p.position.z - a.z)
    ensures var s := ScaleTargetAsWritten(p, fr, wave);
      && r.scale.x - s == (1.0 - 5.0 * fr.dt) * (p.scale.x - s)
      && r.scale.y - s == (1.0 - 5.0 * fr.dt) * (p.scale.y - s)
      && r.scale.z - s == (1.0 - 5.0 * fr.dt) * (p.scale.z - s)
  {
    var st := ScaleTargetAsWritten(p, fr, wave);
    Step(p, fr, jitter, st)
  }

  /** One animation frame with the corrected scale target; the multi-frame
      results below are stated for it. */
  function CorrectedUpdate(p: Particle, fr: Frame, jitter: Vec3, wave: real): (r: Particle)
    ensures r.(position := p.position, scale := p.scale) == p
    ensures 0.0 <= Resolve(p, fr).rate * fr.dt <= 1.0 ==>
      var a := Aim(p, fr, jitter);
      Within(r.position.x, p.position.x, a.x) && Within(r.position.y, p.position.y, a.y)
      && Within(r.position.z, p.position.z, a.z)
    ensures 0.0 <= 5.0 * fr.dt <= 1.0 ==>
      var s := ScaleTarget(p, fr, wave);
      Within(r.scale.x, p.scale.x, s) && Within(r.scale.y, p.scale.y, s) && Within(r.scale.z, p.scale.z, s)
  {
    var st := ScaleTarget(p, fr, wave);
    Step(p, fr, jitter, st)
  }

  /** The two frame updates move the position identically, and the scale
      too except for a gift or bear in NAME_MODE. */
  lemma UpdatesAgree(p: Particle, fr: Frame, jitter: Vec3, wave: real)
    ensures Update(p, fr, jitter, wave).position == CorrectedUpdate(p, fr, jitter, wave).position
    ensures !(fr.mode == Name && (p.kind == Gift || p.kind == Bear)) ==>
      Update(p, fr, jitter, wave) == CorrectedUpdate(p, fr, jitter, wave)
  {
    ScaleTargetsAgree(p, fr, wave);
  }

  /** With `0 < rate * dt < 1` every coordinate of the new position lies
      strictly between the old one and the aim, unless the two already
      agree on that coordinate. */
  lemma UpdateLandsBetween(p: Particle, fr: Frame, jitter: Vec3, wave: real)
    requires 0.0 < Resolve(p, fr).rate * fr.dt < 1.0
    ensures var a, q := Aim(p, fr, jitter), Update(p, fr, jitter, wave).position;
      && Within(q.x, p.position.x, a.x) && Within(q.y, p.position.y, a.y) && Within(q.z, p.position.z, a.z)
      && (p.position.x != a.x ==> q.x != p.position.x && q.x != a.x)
      && (p.position.y != a.y ==> q.y != p.position.y && q.y != a.y)
      && (p.position.z != a.z ==> q.z != p.position.z && q.z != a.z)
  {
    var a, k := Aim(p, fr, jitter), Resolve(p, fr).rate * fr.dt;
    assert Update(p, fr, jitter, wave).position == Lerp(p.position, a, k);
    ApproachBetween(p.position.x, a.x, k);
    ApproachBetween(p.position.y, a.y, k);
    ApproachBetween(p.position.z, a.z, k);
  }

  /** `n` corrected frames under an unchanging frame context, jitter and
      pulse. */
  function Frames(p: Particle, fr: Frame, jitter: Vec3, wave: real, n: nat): Particle {
    if n == 0 then p else CorrectedUpdate(Frames(p, fr, jitter, wave, n - 1), fr, jitter, wave)
  }

  /** The stored layouts, kind and membership survive any number of frames,
      so the goal and scale target stay fixed while the context does. */
  lemma {:induction false} FramesKeepLayout(p: Particle, fr: Frame, jitter: Vec3, wave: real, n: nat)
    ensures Frames(p, fr, jitter, wave, n).(position := p.position, scale := p.scale) == p
  {
    if n > 0 {
      FramesKeepLayout(p, fr, jitter, wave, n - 1);
    }
  }

  /** Over `n` frames one scale coordinate follows exactly the repeated
      smoothing step toward the scale target. */
  lemma {:induction false} FramesScale(p: Particle, fr: Frame, jitter: Vec3, wave: real, n: nat)
    ensures Frames(p, fr, jitter, wave, n).scale.x == ApproachIter(p.scale.x, ScaleTarget(p, fr, wave), 5.0 * fr.dt, n)
    ensures Frames(p, fr, jitter, wave, n).scale.y == ApproachIter(p.scale.y, ScaleTarget(p, fr, wave), 5.0 * fr.dt, n)
    ensures Frames(p, fr, jitter, wave, n).scale.z == ApproachIter(p.scale.z, ScaleTarget(p, fr, wave), 5.0 * fr.dt, n)
  {
    if n > 0 {
      var q := Frames(p, fr, jitter, wave, n - 1);
      FramesScale(p, fr, jitter, wave, n - 1);
      FramesKeepLayout(p, fr, jitter, wave, n - 1);
      assert ScaleTarget(q, fr, wave) == ScaleTarget(p, fr, wave);
    }
  }

  /** Held in NAME_MODE, a glyph member's scale follows the smoothing
      sequence toward `2.5 * baseScale` and every other non-dust particle's
      the one toward zero, so by `ApproachIterGap` the remaining gap after `n`
      frames is `(1 - 5 dt)^n` times the first. */
  lemma NameScaleConverges(p: Particle, fr: Frame, jitter: Vec3, wave: real, n: nat)
    requires fr.mode == Name && p.kind != Dust
    ensures var goal := if p.isText then 2.5 * p.baseScale else 0.0;
      && Frames(p, fr, jitter, wave, n).scale.x == ApproachIter(p.scale.x, goal, 5.0 * fr.dt, n)
      && Frames(p, fr, jitter, wave, n).scale.y == ApproachIter(p.scale.y, goal, 5.0 * fr.dt, n)
      && Frames(p, fr, jitter, wave, n).scale.z == ApproachIter(p.scale.z, goal, 5.0 * fr.dt, n)
  {
    FramesScale(p, fr, jitter, wave, n);
  }
}
