/** Properties of whole runs of the interaction state: the invariant every
    writer keeps, the cooldown seen across two frames, and the photo
    cursor's cycle through the photos and the star. */
module Invariants {
  import opened Geometry
  import opened Gestures
  import opened ModeMachine

  lemma InitialInv()
    ensures Inv(Initial)
  {
  }

  /** Every detected-hand frame keeps the invariant. */
  lemma GestureKeepsInv(s: AppState, f: Features, now: int, photos: seq<nat>)
    requires Inv(s)
    ensures Inv(ProcessGestures(s, f, now, photos))
  {
  }

  /** So do the letter handlers, a theme switch to one of the two themes,
      and the hand-absent updates. */
  lemma HandlersKeepInv(s: AppState, theme: int)
    requires Inv(s)
    requires theme == 0 || theme == 1
    ensures Inv(OpenLetter(s)) && Inv(CloseLetter(s)) && Inv(SwitchTheme(s, theme))
    ensures Inv(LoseHand(s)) && Inv(CoastSpin(s))
  {
  }

  /** Opening and then closing the letter lands on the tree with the spin
      stopped, whatever mode it was opened from; nothing else is touched. */
  lemma LetterRoundTrip(s: AppState)
    ensures CloseLetter(OpenLetter(s)) == s.(mode := Tree, spin := Origin)
  {
  }

  /** Two V-signs less than the cooldown apart toggle the theme at most
      once: the first toggle stamps the timer that blocks the second. */
  lemma VSignOncePerCooldown(s: AppState, f: Features, g: Features, t1: int, t2: int, photos: seq<nat>)
    requires s.photoIndex >= -1
    requires t2 - t1 <= ThemeCooldown
    ensures var r1 := ProcessGestures(s, f, t1, photos);
      var r2 := ProcessGestures(r1, g, t2, photos);
      r1.themeIndex != s.themeIndex ==> r2.themeIndex == r1.themeIndex && r2.gestureTimer == t1
  {
  }

  /** From any reachable state, a pinch while the letter is shut opens it
      exactly when the cooldown has run out. Of the invariant only the
      cursor bound `photoIndex >= -1` is needed; it is what makes the
      statement hold for every state `GestureKeepsInv` reaches from
      `Initial`. */
  lemma PinchOpensLetter(s: AppState, f: Features, now: int, photos: seq<nat>)
    requires Inv(s) && s.mode != Letter && Pinch(f)
    ensures ProcessGestures(s, f, now, photos).mode == Letter <==> now - s.letterTimer > LetterCooldown
  {
    PinchIsOneShot(s, f, now, photos);
  }

  /** The cursor after `m` rising pointing edges, starting from `index`. */
  function CursorAfter(index: int, photos: seq<nat>, m: nat): (r: int)
    requires index >= -1
    ensures -1 <= r
    ensures m > 0 ==> r < |photos|
  {
    if m == 0 then index else AdvanceCursor(CursorAfter(index, photos, m - 1), photos).0
  }

  /** From the reset cursor the first `|photos|` edges visit the photos in
      order. */
  lemma {:induction false} CursorWalks(photos: seq<nat>, m: nat)
    requires m <= |photos|
    ensures CursorAfter(-1, photos, m) == m - 1
  {
    if m > 0 {
      CursorWalks(photos, m - 1);
    }
  }

  /** The next edge reaches the star and resets the cursor, so the walk
      repeats with period `|photos| + 1`. */
  lemma CursorWraps(photos: seq<nat>)
    ensures CursorAfter(-1, photos, |photos| + 1) == -1
    ensures AdvanceCursor(CursorAfter(-1, photos, |photos|), photos).1 == Star
  {
    CursorWalks(photos, |photos|);
  }

  /** The period holds from any number of edges on. */
  lemma {:induction false} CursorPeriodic(photos: seq<nat>, m: nat)
    ensures CursorAfter(-1, photos, m + |photos| + 1) == CursorAfter(-1, photos, m)
  {
    if m == 0 {
      CursorWraps(photos);
    } else {
      CursorPeriodic(photos, m - 1);
    }
  }

  /** On a rising pointing edge that reaches the pointing rule, the frame
      moves the cursor exactly one step and targets what it lands on; the
      anchor is dropped, the spin damped by 10%, and the hand point is left
      where it was, since FOCUS does not track it. */
  lemma PointingStepsCursor(s: AppState, f: Features, now: int, photos: seq<nat>)
    requires s.photoIndex >= -1 && s.mode != Letter && !Preempted(f) && Pointing(f)
    requires s.mode != Name || PalmOpen(f)
    ensures var r := ProcessGestures(s, f, now, photos);
      && r.mode == Focus && r.wasPointing
      && (!s.wasPointing ==> (r.photoIndex, r.focus) == AdvanceCursor(s.photoIndex, photos))
      && (s.wasPointing ==> r.photoIndex == s.photoIndex && r.focus == s.focus)
      && r.spin == Damp(s.spin, 0.9) && !r.hasPalmCenter && r.hand == Seen(s).hand
  {
  }

  /** Whatever the gesture, the cursor and the focus target only ever change
      together, by one cursor step. */
  lemma CursorMovesByStep(s: AppState, f: Features, now: int, photos: seq<nat>)
    requires s.photoIndex >= -1
    ensures var r := ProcessGestures(s, f, now, photos);
      r.focus != s.focus || r.photoIndex != s.photoIndex ==>
        (r.photoIndex, r.focus) == AdvanceCursor(s.photoIndex, photos)
  {
  }
}
