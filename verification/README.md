# Christmas tree gesture core, in Dafny

This project models the two pieces of logic in the interactive particle
Christmas tree (`src/App.tsx`).

**1. The gesture state machine (`processGestures`).**
- Each video frame with a detected hand yields scalar hand features:
  - the four fingertip-to-wrist distances;
  - the palm size;
  - the thumb-to-index gap;
  - the tip and base spread of the index and middle fingers;
  - the palm point.
- From these features, `processGestures` moves an explicit state record through a first-match-wins chain with early returns:
  1. pinch → LETTER, with a 1000 ms cooldown;
  2. three fingers → NAME_MODE;
  3. fist → TREE, from NAME_MODE or SCATTER only;
  4. V-sign → theme toggle, with a 2000 ms cooldown;
  5. the NAME_MODE lock, unless the palm is open;
  6. pointing → FOCUS, advancing a photo cursor on the rising edge;
  7. open palm → SCATTER, with anchor-on-entry and clamped, damped scale and spin;
  8. anything else → TREE.
- The letter open and close handlers, the theme index written by `switchTheme`, and the two hand-absent updates of the animation loop are also modelled.

**2. The per-particle formation logic.**
- `Particle.update` picks, by mode, the point each particle heads for, the smoothing rate, and the scale target. It then takes one lerp step of position and scale.
- `generateNameText` hands the sampled glyph pixels to a shuffled prefix of the particles.

Modules:
- `Arith`, `Geometry` (`geometry.dfy`):
  - points and vectors, the clamp helper;
  - the smoothing step `x + (t - x) * k` and its iteration.
- `Gestures` (`gestures.dfy`): the feature record and the gesture predicates, with the thresholds `0.35` (open palm) and `6.0` (spin gain).
- `ModeMachine` (`mode_machine.dfy`):
  - the state record and each rule as a function;
  - `ProcessGestures`, the state-level handlers, and per-rule lemmas.
- `Invariants` (`invariants.dfy`):
  - the invariant every writer keeps;
  - the cooldown across two frames;
  - the photo cursor's cycle.
- `Formation` (`formation.dfy`): `Particle.update`'s goal, rate and scale choices, the update step, and convergence over repeated frames.
- `Glyph` (`glyph.dfy`): the glyph assignment loop over an arbitrary permutation.
- `Scene` (`scene.dfy`):
  - the photo filter feeding the cursor;
  - the fact that the gesture machine only ever focuses the star or a photo particle.

Inputs that are not state become parameters:
- `Date.now()` is `now: int`.
- The landmark distances are measured reals.
- The shuffle is an index permutation `order`.
- The shell points are a sequence `shell`.
- The sine-driven jitter offset and dust wave are `jitter` and `wave`.
- The inverse world matrix is the already-placed lock point `Locked(at)`, or `NoLock` when the loop passes `null`.

Points where the code behaves differently from what a reading of the feature would suggest; the model follows the code:
- **NAME_MODE with an open palm.** The code tests pointing before the open palm. So an open pointing hand in NAME_MODE goes to FOCUS, not to SCATTER (lines 903-927).
- **Glyph non-members in NAME_MODE.** They still head for `posText`, which holds their shell point. They do not keep their previous target (line 134).
- **Dust in FOCUS.** Dust particles get the FOCUS scale (0.01, or 5 times base when focused). Dust pulses only outside FOCUS (line 191).
- **The pinch and V-sign timestamps.** `Date.now()` is read twice for the pinch (lines 861-862) and twice for the V-sign (lines 896, 898); each pair is one `now`.

## Model

| member | source | states |
|---|---|---|
| Geometry.Clamp | src/App.tsx:940-944 | `clamp(v, lo, hi)` lies in `[lo, hi]`, is `v` itself when `v` is in range, `lo` below the range and `hi` above it |
| Geometry.Approach | src/App.tsx:943-944 | one smoothing step multiplies the distance to the target by exactly `1 - k` |
| Geometry.ApproachBetween | src/App.tsx:943-944 | with `0 <= k <= 1` the step lands between the value and the target, strictly between for `0 < k < 1` |
| Geometry.ApproachStaysIn | src/App.tsx:940-944 | a smoothing step never leaves an interval holding both the value and the target, which keeps scale and spin in their clamps |
| Geometry.DecayStaysIn | src/App.tsx:927 | damping by a factor in `[0, 1]` keeps a value inside a symmetric bound |
| Geometry.ApproachIterGap | src/App.tsx:169 | after `n` frames toward a fixed target the gap is `(1 - k)^n` times the first gap |
| Geometry.ApproachIterShrinks | src/App.tsx:169 | with `0 < k <= 1` the gap never grows, and shrinks strictly (never reaching zero) for `k < 1` from a non-zero start |
| Geometry.Lerp | src/App.tsx:169 | `Vector3.lerp` moves each coordinate's gap by `1 - k` and stays in the box between old position and target |
| Gestures.PalmOpen | src/App.tsx:857-858 | the palm is open when the mean fingertip-to-wrist distance exceeds 0.35 |
| Gestures.Pinch | src/App.tsx:860 | thumb-to-index gap under 0.05, middle finger over 0.15 and over 1.2 index lengths |
| Gestures.ThreeFingers | src/App.tsx:869 | index, middle and ring over 1.5 palm sizes, pinky under one palm size |
| Gestures.Fist | src/App.tsx:880 | all four fingertips under 0.8 palm sizes from the wrist |
| Gestures.VSign | src/App.tsx:891-893 | index and middle over 1.3 palm sizes, ring under half the index, pinky under half the middle, tips spread over 1.2 times the bases |
| Gestures.Pointing | src/App.tsx:913 | index over 0.1, middle and ring under 0.7 index lengths |
| Gestures.PalmOpenPositive | src/App.tsx:857-858 | an open palm has positive openness, so the baseline ratio at line 940 is defined |
| Gestures.PinchExcludesPointing | src/App.tsx:860-913 | no hand is both a pinch and a pointing hand |
| Gestures.FistExcludesVSign | src/App.tsx:880-893 | for measured distances no hand is both a fist and a V-sign |
| Gestures.ThreeFingersExcludesFist | src/App.tsx:869-880 | for measured (non-negative) distances the three-finger and fist poses never hold together |
| ModeMachine.Initial | src/App.tsx:218-228 | the initial state: TREE, no focus, cursor -1, theme 0, timers 0, scale 1, no baseline, no hand, spin 0, palm centre (0.5, 0.5) unanchored |
| Invariants.InitialInv | src/App.tsx:218-228 | the initial state satisfies the state invariant |
| ModeMachine.JsRem | src/App.tsx:897 | JavaScript `%` takes the dividend's sign: in `[0, m)` for non-negative, `(-m, 0]` for negative dividends |
| ModeMachine.NextTheme | src/App.tsx:897 | from any theme index of at least -1 the next one is 0 or 1, and it swaps 0 and 1 |
| ModeMachine.DampBounded | src/App.tsx:927 | damping the spin by a factor in `[0, 1]` keeps it within ±3 |
| ModeMachine.SwitchTheme | src/App.tsx:783-786 | the theme index becomes the argument and no other state changes |
| ModeMachine.OpenLetter | src/App.tsx:1076-1078 | the mode becomes LETTER, the call is a no-op when already in LETTER, nothing else changes |
| ModeMachine.CloseLetter | src/App.tsx:1096-1101 | the mode becomes TREE and the spin (0, 0), nothing else changes |
| ModeMachine.LoseHand | src/App.tsx:651-653 | a frame without a hand clears only the detected flag |
| ModeMachine.CoastSpin | src/App.tsx:714-715 | while scattering with no hand, each spin component is multiplied by exactly 0.95, so it shrinks in magnitude and stays bounded; otherwise nothing changes |
| ModeMachine.PinchRule | src/App.tsx:860-866 | LETTER is entered iff more than 1000 ms passed since the last opening, stamping the time; otherwise nothing changes |
| ModeMachine.ThreeFingerRule | src/App.tsx:871-877 | the mode becomes NAME_MODE; the spin is zeroed only on entry, re-affirming changes nothing |
| ModeMachine.FistRule | src/App.tsx:882-887 | the mode changes, to TREE, iff it was NAME_MODE or SCATTER; nothing else changes |
| ModeMachine.ThemeRule | src/App.tsx:895-900 | past the 2000 ms cooldown the theme flips and the timer is stamped; within it nothing changes |
| ModeMachine.AdvanceCursor | src/App.tsx:919-925 | the cursor steps to the next photo and targets its mesh while photos remain, else resets to -1 on the star; it stays in `[-1, photo count)` |
| ModeMachine.PointRule | src/App.tsx:915-927 | FOCUS with `wasPointing` set and the anchor dropped; the cursor moves only when the finger was not already pointing; spin damped by 10% and still bounded |
| ModeMachine.ScaleGoal | src/App.tsx:940 | the scale goal `(base/avg)^2` is clamped into `[0.1, 5.0]`: the square itself when in range, 5.0 above it and 0.1 below it |
| ModeMachine.SpinGoal | src/App.tsx:942-944 | the spin goal per axis is the displacement times the sensitivity 6 when that lies in `[-3, 3]`, and the nearer end point otherwise |
| ModeMachine.ScatterRule | src/App.tsx:930-944 | SCATTER anchors palm, baseline and unit scale exactly when not already anchored in SCATTER; scale moves 15% toward the clamped goal; the x spin moves 20% of the way to the goal from the palm's rise above the anchor, the y spin 20% to the goal from its move to the right; scale and spin stay in their clamps |
| ModeMachine.RestRule | src/App.tsx:945-950 | outside NAME_MODE: TREE, anchor dropped, scale reset to 1, spin damped by 10%; in NAME_MODE nothing changes |
| ModeMachine.MotionRule | src/App.tsx:912-951 | pointing gives FOCUS, otherwise an open palm gives SCATTER, otherwise TREE (NAME_MODE kept only when already there); never LETTER; `wasPointing` records exactly whether the hand points |
| ModeMachine.TrackHand | src/App.tsx:953-956 | only the smoothed hand position changes, and not in FOCUS or NAME_MODE; elsewhere each coordinate closes 10% of its gap to `(palm - 0.5) * 3` |
| ModeMachine.GestureTail | src/App.tsx:891-956 | the V-sign is the only way the theme changes; NAME_MODE holds without an open palm; otherwise the mode ends FOCUS when pointing, SCATTER for an open palm, TREE else; the cursor moves only on a rising pointing edge; anchors are taken only on SCATTER entry; clamps hold |
| ModeMachine.ProcessGestures | src/App.tsx:848-957 | LETTER ignores every gesture; only a pinch past its cooldown opens the letter; only a V-sign past its cooldown toggles the theme; the cursor stays in range and moves only on a rising pointing edge; FOCUS is entered only by pointing; scale and spin stay clamped |
| ModeMachine.PinchIsOneShot | src/App.tsx:860-866 | with a pinch the frame opens the letter iff the cooldown ran out and changes nothing else either way |
| ModeMachine.ThreeFingersEnterName | src/App.tsx:871-877 | three fingers always end in NAME_MODE, zeroing the spin only on entry, nothing else changing |
| ModeMachine.FistReturnsToTree | src/App.tsx:880-887 | a fist ends the frame in TREE from NAME_MODE, SCATTER or TREE and leaves FOCUS in FOCUS, only the mode changing |
| ModeMachine.VSignToggles | src/App.tsx:891-910 | a V-sign past the cooldown toggles the theme before the NAME_MODE lock, which still keeps NAME_MODE without an open palm |
| ModeMachine.NameModeLocks | src/App.tsx:903-910 | in NAME_MODE without an open palm nothing but a theme toggle changes |
| ModeMachine.OpenPalmScatters | src/App.tsx:929-956 | an open, non-pointing hand past the earlier rules ends in SCATTER, anchored (freshly on entry); the scale is 15% and each spin axis 20% closer to its clamped goal, and the hand point 10% closer to `(palm - 0.5) * 3` |
| ModeMachine.RestReturnsToTree | src/App.tsx:945-956 | a neutral hand outside NAME_MODE ends in TREE with the anchor dropped, scale 1, the spin damped by 10% and the hand point 10% closer to `(palm - 0.5) * 3` |
| ModeMachine.ScatterAnchorsOnEntry | src/App.tsx:932-937 | entering SCATTER records the palm point and the current openness as the baseline |
| Invariants.GestureKeepsInv | src/App.tsx:848-957 | every hand frame keeps the state invariant: theme in {0, 1}, cursor at least -1, clamps, anchor only with a valid baseline, SCATTER anchored, FOCUS with a target |
| Invariants.HandlersKeepInv | src/App.tsx:1076-1101 | the letter handlers, a theme switch to 0 or 1 and the hand-absent updates keep the invariant |
| Invariants.LetterRoundTrip | src/App.tsx:1076-1101 | opening then closing the letter gives TREE with the spin stopped and every other field as before |
| Invariants.VSignOncePerCooldown | src/App.tsx:895-900 | two V-sign frames at most 2000 ms apart toggle the theme at most once |
| Invariants.PinchOpensLetter | src/App.tsx:860-866 | from any reachable non-LETTER state a pinch opens the letter iff the cooldown ran out |
| Invariants.CursorAfter | src/App.tsx:917-925 | after any number of rising edges the cursor stays in `[-1, photo count)` |
| Invariants.CursorWalks | src/App.tsx:917-925 | from the reset cursor the first `n` edges visit photos `0 .. n-1` in order |
| Invariants.CursorWraps | src/App.tsx:920-925 | the edge after the last photo targets the star and resets the cursor |
| Invariants.CursorPeriodic | src/App.tsx:917-925 | the cursor repeats with period photo count + 1 |
| Invariants.PointingStepsCursor | src/App.tsx:913-956 | a pointing hand reaching rule 6 ends in FOCUS; a rising edge takes exactly one cursor step, holding the point keeps cursor and target; the anchor is dropped, the spin damped by 10% and the hand point left untracked |
| Invariants.CursorMovesByStep | src/App.tsx:915-927 | in any frame the cursor or focus changes only by one cursor step |
| Formation.Resolve | src/App.tsx:117-159 | the goal and rate by mode: scaled scatter sphere at 5, letter backdrop at 3, glyph at 4, the focused particle at the lock point at 6, all others in FOCUS at the scatter sphere at 3, the tree layout at 3 in TREE |
| Formation.Aim | src/App.tsx:161-167 | the jitter is added exactly in TREE and, for glyph members, in NAME_MODE |
| Formation.ScaleTargetAsWritten | src/App.tsx:132-199 | as written: FOCUS gives 5 times base to the focused particle and 0.01 to others; NAME_MODE gives 2.5 times base to members and 0 to others except dust, gifts and bears; outside FOCUS dust pulses, photos get 2.5 times base in SCATTER and LETTER, gifts and bears get base (1.2 times base in SCATTER, base also in NAME_MODE), everything else base |
| Formation.ScaleTarget | src/App.tsx:132-199 | NAME_MODE gives glyph members 2.5 times base and all other non-dust particles 0; FOCUS gives 5 times base to the focused particle and 0.01 to others; dust pulses outside FOCUS; photos get 2.5 times base in SCATTER and LETTER; gifts and bears get base, 1.2 times in SCATTER, outside NAME_MODE; everything else base; targets lie in `[0, 2.5 * base]` outside FOCUS |
| Formation.Pulse | src/App.tsx:192 | the dust pulse lies between 0 and the base scale |
| Formation.ScaleTargetsAgree | src/App.tsx:191-199 | the corrected scale target differs from the written one only for gifts and bears in NAME_MODE |
| Formation.GiftStaysVisibleInName | src/App.tsx:137-198 | a non-member gift in NAME_MODE keeps scale 0.6 as written instead of vanishing |
| Formation.Step | src/App.tsx:161-201 | one smoothing step changes only position and scale; each position coordinate keeps `1 - rate * dt` of its gap to the aim and each scale coordinate `1 - 5 dt` of its gap to the target, so both stay between old value and target for steps in `[0, 1]` |
| Formation.Update | src/App.tsx:116-202 | as written: one frame changes only position and scale, the position keeps `1 - rate * dt` of its gap to the aim and the scale `1 - 5 dt` of its gap to `ScaleTargetAsWritten`, each staying between old value and target for steps in `[0, 1]` |
| Formation.CorrectedUpdate | src/App.tsx:116-202 | the same frame with the scale heading for the corrected `ScaleTarget` |
| Formation.UpdatesAgree | src/App.tsx:191-201 | the written and corrected frames give the same position, and the same particle except for a gift or bear in NAME_MODE |
| Formation.UpdateLandsBetween | src/App.tsx:169 | with `0 < rate * dt < 1` each coordinate lands strictly between the old position and the aim |
| Formation.FramesKeepLayout | src/App.tsx:116-202 | any number of frames keep kind, base scale, layouts and membership |
| Formation.FramesScale | src/App.tsx:201 | over `n` corrected frames each scale coordinate follows the repeated smoothing step toward the corrected scale target |
| Formation.NameScaleConverges | src/App.tsx:135-142 | held in NAME_MODE under the corrected frames, every scale coordinate of a member converges toward 2.5 times base and of a non-member toward 0 |
| Glyph.Assigned | src/App.tsx:563-577 | the `i`-th shuffled particle becomes a text particle on pixel `i` iff pixels remain, otherwise a non-member on its shell point; nothing else changes |
| Glyph.AssignGlyph | src/App.tsx:561-578 | every particle is reassigned by its shuffled rank; text particles sit on pixels; exactly `min(pixel count, particle count)` particles are text particles |
| Glyph.ImageSize | src/App.tsx:561 | the first `m` shuffled particles are `m` distinct particles |
| Glyph.Covers | src/App.tsx:561-562 | the shuffle reaches every particle |
| Scene.PhotoMeshes | src/App.tsx:918 | the photo list holds exactly the meshes of the photo particles |
| Scene.PhotoMeshesAppend | src/App.tsx:918 | the filter keeps the particles' order: appending a particle appends its mesh exactly when it is a photo |
| Scene.GestureFrame | src/App.tsx:915-925 | a gesture frame over the scene keeps the focus on nothing, the star or a photo particle |
| Scene.NewFocusFromCursor | src/App.tsx:919-925 | a new focus target is the star or a listed photo mesh |
| Scene.FocusedIsPhoto | src/App.tsx:145-151 | with distinct meshes, the particle `update` brings to the front is a photo |

## Left out

- Rendering is not modelled: the Three.js scene, materials, lights, post-processing and the material and exposure changes in `switchTheme` (lines 787-845). These are side effects through a library that is not part of this model.
- MediaPipe landmark detection, webcam and canvas handling, and `lastVideoTime` frame gating are not modelled. Landmark distances are inputs, and a frame is either a feature record or a missing hand.
- Text rasterisation and `getImageData` are not modelled; the pixel list is an input.
- `Math.random` is not modelled. The shuffle is any permutation, and the shell points, tree and sphere layouts are arbitrary stored vectors.
- The trigonometric jitter offset and the sine of the dust pulse are parameters, and `Math.sin` is not modelled.
- The emissive blink and colour logic (lines 171-189) is left out; it only writes material colour.
- Object rotation toward the camera (`lookAt`) is left out.
- The scene rotation `STATE.rotation` (lines 700-713, 720-723) is left out: it only turns the whole group on screen, and no gesture rule reads it. The model keeps the spin velocity it integrates.
- The star mesh's own animation is left out.
- File import/export, music, photo loading, the letter typewriter timers, fullscreen and the React overlay state are left out: they are I/O, asynchronous timers and UI.
- Floating point is modelled as exact reals. NaN, Infinity and rounding are not represented.
- `Math.pow(base/avg, 2)` with `avg = 0` cannot occur here: the scatter branch runs only for an open palm, whose openness exceeds 0.35.
- `switchTheme` called with an index that is not 0 or 1 (possible from an imported file) leaves the invariant. `Invariants.HandlersKeepInv` therefore requires the index to be 0 or 1.
- ModeMachine.ProcessGestures: its own contract states the cross-rule guarantees only. The rule-by-rule outcomes are stated by the lemmas `PinchIsOneShot`, `ThreeFingersEnterName`, `FistReturnsToTree`, `VSignToggles`, `NameModeLocks`, `ScatterAnchorsOnEntry`, `OpenPalmScatters`, `RestReturnsToTree` and `Invariants.PointingStepsCursor`.
- ModeMachine.JsRem: states the range and sign of the remainder, not the divisibility `m | a - r`.
- Formation.Frames, Formation.FramesScale and Formation.NameScaleConverges: stated for the corrected frame `CorrectedUpdate`, not for the frame as written; `Formation.UpdatesAgree` says where the two differ.
- ModeMachine.ProcessGestures: requires a photo cursor of at least -1. A smaller cursor would make line 921 read `.mesh` of `undefined` and throw. No reachable state has one: the cursor starts at -1 (line 219), and `Invariants.GestureKeepsInv` keeps it there or above.
- Scene.FocusedIsPhoto: requires distinct meshes per particle. The program creates one mesh per particle, which this model does not represent.

## Findings

| source | as written | input that shows it | evidently intended | confidence | as-written member | corrected member |
|---|---|---|---|---|---|---|
| src/App.tsx:191-198 | outside FOCUS, gifts and bears are given `baseScale` after the NAME_MODE branch chose 0 for every non-glyph particle, so in NAME_MODE they stay visible (and glyph members among them get `baseScale` instead of 2.5 times it) | a gift with `baseScale` 0.6, not a glyph member, in NAME_MODE: scale target 0.6 | lines 139-141 say non-glyph particles, gifts and bears included, vanish while the text is shown: scale target 0 (2.5 times base for members) | medium, not executed | Formation.ScaleTargetAsWritten, Formation.Update, Formation.GiftStaysVisibleInName | Formation.ScaleTarget, Formation.CorrectedUpdate, Formation.FramesScale, Formation.NameScaleConverges |
