/** Where the two halves meet: the photo list the pointing rule walks is the
    meshes of the photo particles, so whatever the gesture machine focuses is
    the star or the mesh of a photo particle, and that particle is the only
    one `Particle.update` brings to the front. */
module Scene {
  import opened Geometry
  import opened Gestures
  import opened ModeMachine
  import opened Formation
  import opened Invariants

  /** `m` is the mesh of some photo particle of `ps`. */
  predicate IsPhotoMesh(ps: seq<Particle>, m: nat) {
    exists k :: 0 <= k < |ps| && ps[k].kind == Photo && ps[k].mesh == m
  }

  /** `particleSystem.filter(p => p.type === 'PHOTO')`, as meshes, in the
      particles' order. */
  function PhotoMeshes(ps: seq<Particle>): (r: seq<nat>)
    ensures |r| <= |ps|
    ensures forall i :: 0 <= i < |r| ==> IsPhotoMesh(ps, r[i])
    ensures forall k :: 0 <= k < |ps| && ps[k].kind == Photo ==> ps[k].mesh in r
  {
    if |ps| == 0 then []
    else
      var rest := PhotoMeshes(ps[1..]);
      assert forall i :: 0 <= i < |rest| ==> IsPhotoMesh(ps, rest[i]) by {
        forall i | 0 <= i < |rest|
          ensures IsPhotoMesh(ps, rest[i])
        {
          var k :| 0 <= k < |ps[1..]| && ps[1..][k].kind == Photo && ps[1..][k].mesh == rest[i];
          assert ps[k + 1] == ps[1..][k];
        }
      }
      assert forall k :: 1 <= k < |ps| && ps[k].kind == Photo ==> ps[k].mesh in rest by {
        forall k | 1 <= k < |ps| && ps[k].kind == Photo
          ensures ps[k].mesh in rest
        {
          assert ps[1..][k - 1] == ps[k];
        }
      }
      if ps[0].kind == Photo then [ps[0].mesh] + rest else rest
  }

  /** The filter keeps the particles' order: a particle added at the end
      adds its mesh at the end exactly when it is a photo. */
  lemma {:induction false} PhotoMeshesAppend(ps: seq<Particle>, q: Particle)
    ensures PhotoMeshes(ps + [q]) == PhotoMeshes(ps) + (if q.kind == Photo then [q.mesh] else [])
  {
    if |ps| == 0 {
      assert ps + [q] == [q];
    } else {
      assert (ps + [q])[1..] == ps[1..] + [q];
      PhotoMeshesAppend(ps[1..], q);
    }
  }

  /** A focus target the scene can show: none yet, the star, or a photo. */
  predicate FocusValid(focus: FocusTarget, ps: seq<Particle>) {
    focus.Mesh? ==> IsPhotoMesh(ps, focus.id)
  }

  /** A detected-hand frame over the scene's particles. */
  function GestureFrame(s: AppState, f: Features, now: int, ps: seq<Particle>): (r: AppState)
    requires s.photoIndex >= -1
    ensures FocusValid(s.focus, ps) ==> FocusValid(r.focus, ps)
    ensures r.photoIndex >= -1
  {
    NewFocusFromCursor(s, f, now, PhotoMeshes(ps));
    ProcessGestures(s, f, now, PhotoMeshes(ps))
  }

  /** A focus change comes from the cursor, which only names listed photos
      or the star. */
  lemma NewFocusFromCursor(s: AppState, f: Features, now: int, photos: seq<nat>)
    requires s.photoIndex >= -1
    ensures var r := ProcessGestures(s, f, now, photos);
      r.focus != s.focus ==> r.focus == Star || exists i :: 0 <= i < |photos| && r.focus == Mesh(photos[i])
  {
    var r := ProcessGestures(s, f, now, photos);
    if r.focus != s.focus {
      CursorMovesByStep(s, f, now, photos);
    }
  }

  /** In FOCUS at most the particles on the focused mesh are brought to the
      front; if that mesh belongs to a particle at all, it is a photo. */
  lemma FocusedIsPhoto(ps: seq<Particle>, fr: Frame, k: nat)
    requires k < |ps|
    requires FocusValid(fr.focus, ps)
    requires forall i, j :: 0 <= i < j < |ps| ==> ps[i].mesh != ps[j].mesh
    ensures Focused(ps[k], fr) ==> ps[k].kind == Photo
  {
  }
}
