/** The viewer of main.c: the input handlers over the global key flags, the
    mouse-look camera rotation, projection of points through the camera
    onto the screen, and the per-face cull-and-shade loop of `render`.

    The globals the handlers change are the fields of a `Game` object; the
    pure functions `KeyDown`, `KeyUp` and `MouseLook` specify each handler,
    and lemmas about them state the handler properties. */
module Viewer {
  import opened Vector
  import opened Wrappers
  import opened MeshLoader

  const Pi: real := 3.1415926535897932384
  const HalfPi: real := 1.5707963267948966192

  const WindowWidth: int := 1920
  const WindowHeight: int := 1080

  /** 90 degrees. */
  const CamFov: real := Pi / 2.0
  const CamClipMin: real := 0.5

  /** Rays closer than this to parallel with the view plane do not project. */
  const ParallelEpsilon: real := 0.000001

  /** Radians of camera rotation per unit of relative mouse motion. */
  const MouseSense: real := 0.005

  // ---------- camera and projection ----------

  datatype CamState = CamState(position: V3, rotation: V3, defNormal: V3, defUp: V3)

  /** The camera start: 2 units behind the origin, looking along +y with +z up. */
  const InitialCam: CamState := CamState(V3(0.0, -2.0, 0.0), Zero3, V3(0.0, 1.0, 0.0), V3(0.0, 0.0, 1.0))

  datatype CamProjectionInfo = CamProjectionInfo(position: V3, planePosition: V3, normalV: V3,
                                                 upV: V3, rightV: V3, fovScale: real)

  /** `getCamProjectionInfo`: the rotated, normalised view and up vectors,
      the projection plane CamClipMin ahead, the right vector, and the
      scale from plane units to pixels. */
  function GetCamProjectionInfo(camera: CamState, math: MathLib): CamProjectionInfo
    requires math.tan(CamFov / 2.0) != 0.0
  {
    var camTransform := Transform(Zero3, camera.rotation, Ones3);
    var normalV := Normalize(TransformV3(camera.defNormal, camTransform, math), math.sqrt);
    var upV := Normalize(TransformV3(camera.defUp, camTransform, math), math.sqrt);
    var planePoint := V3Add(camera.position, V3Scale(normalV, CamClipMin));
    var rightV := Normalize(Cross(upV, normalV), math.sqrt);
    CamProjectionInfo(camera.position, planePoint, normalV, upV, rightV,
                      WindowWidth as real / (2.0 * math.tan(CamFov / 2.0)))
  }

  function Abs(x: real): real { if x < 0.0 then -x else x }

  /** The unit ray from the camera to the point. */
  function Ray(point: V3, info: CamProjectionInfo, sqrt: real -> real): V3
  {
    Normalize(V3Sub(point, info.position), sqrt)
  }

  /** The cosine-like term the parallel test looks at. */
  function RayDot(point: V3, info: CamProjectionInfo, sqrt: real -> real): real
  {
    Dot(Ray(point, info, sqrt), info.normalV)
  }

  /** The ray parameter at which it meets the projection plane. */
  function HitDistance(point: V3, info: CamProjectionInfo, sqrt: real -> real): real
    requires RayDot(point, info, sqrt) != 0.0
  {
    Dot(V3Sub(info.planePosition, info.position), info.normalV) / RayDot(point, info, sqrt)
  }

  function Hit(point: V3, info: CamProjectionInfo, sqrt: real -> real): V3
    requires RayDot(point, info, sqrt) != 0.0
  {
    V3Add(info.position, V3Scale(Ray(point, info, sqrt), HitDistance(point, info, sqrt)))
  }

  /** Whether `project3DtoScreen` fails: the ray is (nearly) parallel to the
      plane, or meets it at or behind the camera. */
  predicate ProjectionFails(point: V3, info: CamProjectionInfo, sqrt: real -> real)
  {
    Abs(RayDot(point, info, sqrt)) < ParallelEpsilon || HitDistance(point, info, sqrt) <= 0.0
  }

  /** `project3DtoScreen`: the pixel where the ray to the point crosses the
      projection plane, measured along the right and up vectors from the
      plane centre and moved so that the plane centre is the screen centre. */
  function Project3DToScreen(point: V3, info: CamProjectionInfo, sqrt: real -> real): (r: Option<V2>)
    ensures r.None? <==> ProjectionFails(point, info, sqrt)
  {
    if Abs(RayDot(point, info, sqrt)) < ParallelEpsilon then None
    else if HitDistance(point, info, sqrt) <= 0.0 then None
    else
      var local := V3Sub(Hit(point, info, sqrt), info.planePosition);
      var x := Dot(local, info.rightV) * info.fovScale;
      var y := Dot(local, info.upV) * info.fovScale;
      Some(V2(x + (WindowWidth / 2) as real, y + (WindowHeight / 2) as real))
  }

  /** Whenever a point projects, the hit point lies on the projection plane. */
  lemma HitOnPlane(point: V3, info: CamProjectionInfo, sqrt: real -> real)
    requires !ProjectionFails(point, info, sqrt)
    ensures Dot(V3Sub(Hit(point, info, sqrt), info.planePosition), info.normalV) == 0.0
  {
  }

  /** The projection plane lies CamClipMin along the view normal from the
      camera, and the camera position is carried over unchanged. */
  lemma PlaneAheadOfCamera(camera: CamState, math: MathLib)
    requires math.tan(CamFov / 2.0) != 0.0
    ensures var info := GetCamProjectionInfo(camera, math);
            info.position == camera.position &&
            V3Sub(info.planePosition, info.position) == V3Scale(info.normalV, CamClipMin)
  {
  }

  /** `projectPoints3DtoScreen`'s per-point result: the projection, or the
      screen origin when there is none. */
  function OrOrigin(p: Option<V2>): V2
  {
    match p
    case Some(q) => q
    case None => Zero2
  }

  /** The projection of one frame: `project3DtoScreen` against the camera
      information of that frame. */
  function FrameProjection(info: CamProjectionInfo, sqrt: real -> real): V3 -> Option<V2>
  {
    p => Project3DToScreen(p, info, sqrt)
  }

  /** Against the frame's camera, a point falls back to (0, 0) exactly when
      `project3DtoScreen` fails for it, and otherwise gets its projection. */
  lemma FrameFallback(p: V3, info: CamProjectionInfo, sqrt: real -> real)
    ensures ProjectionFails(p, info, sqrt) ==> OrOrigin(FrameProjection(info, sqrt)(p)) == Zero2
    ensures !ProjectionFails(p, info, sqrt) ==>
              OrOrigin(FrameProjection(info, sqrt)(p)) == Project3DToScreen(p, info, sqrt).value
  {
  }

  /** `projectPoints3DtoScreen`, with `project3DtoScreen` against the
      frame's camera taken as the partial function `project`: for every
      `i < n`, `projected[i]` becomes `project(v[i])` when that exists and
      (0, 0) otherwise; nothing else in `projected` changes. */
  method ProjectPoints3DToScreen(v: array<V3>, projected: array<V2>, n: int, project: V3 -> Option<V2>)
    requires n <= v.Length && n <= projected.Length
    modifies projected
    ensures forall i :: 0 <= i < n ==> projected[i] == OrOrigin(project(v[i]))
    ensures forall i :: 0 <= i < projected.Length && !(0 <= i < n) ==> projected[i] == old(projected[i])
  {
    var i := 0;
    while i < n
      invariant 0 <= i <= if n < 0 then 0 else n
      invariant forall j :: 0 <= j < i ==> projected[j] == OrOrigin(project(v[j]))
      invariant forall j :: i <= j < projected.Length ==> projected[j] == old(projected[j])
    {
      var out := project(v[i]);
      if out.Some? {
        projected[i] := out.value;
      } else {
        projected[i] := V2(0.0, 0.0);
      }
      i := i + 1;
    }
  }

  // ---------- the face loop of render ----------

  datatype FColor = FColor(r: real, g: real, b: real, a: real)
  datatype Vertex = Vertex(position: V2, color: FColor)

  /** One `SDL_RenderGeometry` call: a triangle of three coloured vertices. */
  datatype Submission = Submission(v0: Vertex, v1: Vertex, v2: Vertex)

  /** The two reads `render` makes of every face before the cull test:
      its first vertex and its normal. */
  predicate CullInRange(m: MeshValue, t: Tri)
  {
    0 <= t.v0 < |m.vertices| && 0 <= t.n0 < |m.normals|
  }

  /** All the reads of a face that is drawn: its three vertices and its normal. */
  predicate TriInRange(m: MeshValue, t: Tri)
  {
    CullInRange(m, t) && 0 <= t.v1 < |m.vertices| && 0 <= t.v2 < |m.vertices|
  }

  /** Every face's first vertex and normal exist, so the cull test reads
      within the arrays (the loader does not check indices). */
  predicate CullableFaces(m: MeshValue)
  {
    forall j :: 0 <= j < |m.faces| ==> CullInRange(m, m.faces[j])
  }

  /** What `render` reads without checking: every face's first vertex and
      normal, and the other two vertices of each face that is not culled. */
  predicate RenderableFaces(m: MeshValue, cam: CamState, sqrt: real -> real)
  {
    CullableFaces(m) &&
    forall j :: 0 <= j < |m.faces| ==> Culled(m, m.faces[j], cam, sqrt) || TriInRange(m, m.faces[j])
  }

  /** The face normal dotted with the unit direction from the camera to the
      face's first vertex. */
  function Facing(m: MeshValue, t: Tri, cam: CamState, sqrt: real -> real): real
    requires CullInRange(m, t)
  {
    Dot(m.normals[t.n0], Normalize(V3Sub(m.vertices[t.v0], cam.position), sqrt))
  }

  predicate Culled(m: MeshValue, t: Tri, cam: CamState, sqrt: real -> real)
    requires CullInRange(m, t)
  {
    Facing(m, t, cam, sqrt) > 0.0
  }

  /** The grey level of a face: the negated facing value, clamped to [0, 1]. */
  function Intensity(facing: real): (r: real)
    ensures 0.0 <= r <= 1.0
    ensures facing <= 0.0 ==> r == (if -facing < 1.0 then -facing else 1.0)
    ensures facing > 0.0 ==> r == 0.0
  {
    var intensity := -facing;
    var lower := if intensity < 0.0 then 0.0 else intensity;
    if lower > 1.0 then 1.0 else lower
  }

  lemma IntensityIsClamp(facing: real)
    ensures Intensity(facing) == Clampd(-facing, 0.0, 1.0)
  {
  }

  /** What `render` submits for one face that is not culled. */
  function FaceSubmission(m: MeshValue, t: Tri, cam: CamState, project: V3 -> Option<V2>,
                          sqrt: real -> real): Submission
    requires TriInRange(m, t)
  {
    var i := Intensity(Facing(m, t, cam, sqrt));
    var colf := FColor(i, i, i, 1.0);
    Submission(Vertex(OrOrigin(project(m.vertices[t.v0])), colf),
               Vertex(OrOrigin(project(m.vertices[t.v1])), colf),
               Vertex(OrOrigin(project(m.vertices[t.v2])), colf))
  }

  /** The submissions for the first `n` faces, in face order. */
  function RenderFaces(m: MeshValue, cam: CamState, project: V3 -> Option<V2>,
                       sqrt: real -> real, n: nat): seq<Submission>
    requires n <= |m.faces| && RenderableFaces(m, cam, sqrt)
  {
    if n == 0 then []
    else
      var t := m.faces[n - 1];
      RenderFaces(m, cam, project, sqrt, n - 1) +
        (if Culled(m, t, cam, sqrt) then [] else [FaceSubmission(m, t, cam, project, sqrt)])
  }

  /** One more face adds its submission unless it is culled. */
  lemma RenderFacesNext(m: MeshValue, cam: CamState, project: V3 -> Option<V2>, sqrt: real -> real, n: nat)
    requires n < |m.faces| && RenderableFaces(m, cam, sqrt)
    ensures RenderFaces(m, cam, project, sqrt, n + 1) ==
            RenderFaces(m, cam, project, sqrt, n) +
              (if Culled(m, m.faces[n], cam, sqrt) then [] else [FaceSubmission(m, m.faces[n], cam, project, sqrt)])
  {
  }

  /** The indices below `n` of the faces that are not culled, in increasing order. */
  function FrontFaces(m: MeshValue, cam: CamState, sqrt: real -> real, n: nat): (r: seq<nat>)
    requires n <= |m.faces| && CullableFaces(m)
    ensures forall k :: 0 <= k < |r| ==> r[k] < n && !Culled(m, m.faces[r[k]], cam, sqrt)
  {
    if n == 0 then []
    else
      FrontFaces(m, cam, sqrt, n - 1) + (if Culled(m, m.faces[n - 1], cam, sqrt) then [] else [n - 1])
  }

  /** The front faces are listed in increasing index order. */
  lemma {:induction false} FrontFacesIncreasing(m: MeshValue, cam: CamState, sqrt: real -> real, n: nat)
    requires n <= |m.faces| && CullableFaces(m)
    ensures forall a, b :: 0 <= a < b < |FrontFaces(m, cam, sqrt, n)| ==>
              FrontFaces(m, cam, sqrt, n)[a] < FrontFaces(m, cam, sqrt, n)[b]
  {
    if n > 0 {
      FrontFacesIncreasing(m, cam, sqrt, n - 1);
      var r0, r := FrontFaces(m, cam, sqrt, n - 1), FrontFaces(m, cam, sqrt, n);
      assert r == r0 || r == r0 + [n - 1];
      forall a, b | 0 <= a < b < |r|
        ensures r[a] < r[b]
      {
        if b < |r0| {
          assert r[a] == r0[a] && r[b] == r0[b];
          assert r0[a] < r0[b];
        } else {
          assert r[a] == r0[a] && r[b] == n - 1;
          assert r0[a] < n - 1;
        }
      }
    }
  }

  /** A face below `n` is listed exactly when it is not culled. */
  lemma {:induction false} FrontFacesMembers(m: MeshValue, cam: CamState, sqrt: real -> real, n: nat)
    requires n <= |m.faces| && CullableFaces(m)
    ensures forall j :: 0 <= j < n ==> (j in FrontFaces(m, cam, sqrt, n) <==> !Culled(m, m.faces[j], cam, sqrt))
  {
    if n > 0 {
      FrontFacesMembers(m, cam, sqrt, n - 1);
      var r0, r := FrontFaces(m, cam, sqrt, n - 1), FrontFaces(m, cam, sqrt, n);
      forall j | 0 <= j < n
        ensures j in r <==> !Culled(m, m.faces[j], cam, sqrt)
      {
        if j < n - 1 {
          assert j in r <==> j in r0;
        }
      }
    }
  }

  /** `render` submits exactly the faces that are not culled, in face order,
      each as `FaceSubmission` describes it. */
  lemma {:induction false} RenderFacesAreFrontFaces(m: MeshValue, cam: CamState,
                                                    project: V3 -> Option<V2>,
                                                    sqrt: real -> real, n: nat)
    requires n <= |m.faces| && RenderableFaces(m, cam, sqrt)
    ensures var fs := FrontFaces(m, cam, sqrt, n);
            |RenderFaces(m, cam, project, sqrt, n)| == |fs| &&
            forall k :: 0 <= k < |fs| ==>
              RenderFaces(m, cam, project, sqrt, n)[k] == FaceSubmission(m, m.faces[fs[k]], cam, project, sqrt)
  {
    if n > 0 {
      RenderFacesAreFrontFaces(m, cam, project, sqrt, n - 1);
      var fs0, r0 := FrontFaces(m, cam, sqrt, n - 1), RenderFaces(m, cam, project, sqrt, n - 1);
      var t := m.faces[n - 1];
      if !Culled(m, t, cam, sqrt) {
        var fs, r := FrontFaces(m, cam, sqrt, n), RenderFaces(m, cam, project, sqrt, n);
        assert fs == fs0 + [n - 1];
        assert r == r0 + [FaceSubmission(m, t, cam, project, sqrt)];
        forall k | 0 <= k < |fs|
          ensures r[k] == FaceSubmission(m, m.faces[fs[k]], cam, project, sqrt)
        {
          if k < |fs0| {
            assert r[k] == r0[k] && fs[k] == fs0[k];
          }
        }
      }
    }
  }

  /** Every submitted triangle has one colour on all three vertices, opaque,
      grey at the face's intensity, which lies in [0, 1] and is
      min(-facing, 1); the face it comes from is not culled. */
  lemma SubmittedShading(m: MeshValue, cam: CamState, project: V3 -> Option<V2>,
                         sqrt: real -> real, k: nat)
    requires RenderableFaces(m, cam, sqrt)
    requires k < |RenderFaces(m, cam, project, sqrt, |m.faces|)|
    ensures k < |FrontFaces(m, cam, sqrt, |m.faces|)|
    ensures var fs := FrontFaces(m, cam, sqrt, |m.faces|);
            var s := RenderFaces(m, cam, project, sqrt, |m.faces|)[k];
            var facing := Facing(m, m.faces[fs[k]], cam, sqrt);
            facing <= 0.0 &&
            s.v0.color == s.v1.color == s.v2.color &&
            s.v0.color == FColor(s.v0.color.r, s.v0.color.r, s.v0.color.r, 1.0) &&
            0.0 <= s.v0.color.r <= 1.0 &&
            s.v0.color.r == (if -facing < 1.0 then -facing else 1.0)
  {
    RenderFacesAreFrontFaces(m, cam, project, sqrt, |m.faces|);
    var fs := FrontFaces(m, cam, sqrt, |m.faces|);
    FrontFacesMembers(m, cam, sqrt, |m.faces|);
    assert fs[k] in fs;
  }

  /** The body of `render`'s face loop past the cull test: the three
      corners copied to `points`, the clamped grey level, the projection
      into `projectedPoints`, and the triangle handed to `SDL_RenderGeometry`. */
  method ShadeFace(mesh: MeshValue, face: Tri, viewDir: V3, points: array<V3>, projectedPoints: array<V2>,
                   cam: CamState, project: V3 -> Option<V2>, sqrt: real -> real)
    returns (verts: Submission)
    requires TriInRange(mesh, face) && viewDir == Normalize(V3Sub(mesh.vertices[face.v0], cam.position), sqrt)
    requires points.Length == 3 && projectedPoints.Length == 3
    modifies points, projectedPoints
    ensures verts == FaceSubmission(mesh, face, cam, project, sqrt)
  {
    points[0] := mesh.vertices[face.v0];
    points[1] := mesh.vertices[face.v1];
    points[2] := mesh.vertices[face.v2];
    var intensity := Dot(mesh.normals[face.n0], viewDir);
    intensity := intensity * -1.0;
    if intensity < 0.0 {
      intensity := 0.0;
    }
    if intensity > 1.0 {
      intensity := 1.0;
    }
    var colf := FColor(intensity, intensity, intensity, 1.0);
    ProjectPoints3DToScreen(points, projectedPoints, 3, project);
    verts := Submission(Vertex(projectedPoints[0], colf),
                        Vertex(projectedPoints[1], colf),
                        Vertex(projectedPoints[2], colf));
  }

  /** The face loop of `render` (which takes the mesh by value), returning
      the triangles it hands to `SDL_RenderGeometry`, in order. */
  method Render(mesh: MeshValue, cam: CamState, project: V3 -> Option<V2>, sqrt: real -> real)
    returns (submitted: seq<Submission>)
    requires RenderableFaces(mesh, cam, sqrt)
    ensures submitted == RenderFaces(mesh, cam, project, sqrt, |mesh.faces|)
  {
    var points := new V3[3];
    var projectedPoints := new V2[3];
    submitted := [];
    var i := 0;
    while i < |mesh.faces|
      invariant 0 <= i <= |mesh.faces|
      invariant submitted == RenderFaces(mesh, cam, project, sqrt, i)
    {
      var face := mesh.faces[i];
      assert CullInRange(mesh, face);
      RenderFacesNext(mesh, cam, project, sqrt, i);
      var viewDir := Normalize(V3Sub(mesh.vertices[face.v0], cam.position), sqrt);
      if Dot(mesh.normals[face.n0], viewDir) > 0.0 {
        i := i + 1;
        continue;
      }
      assert TriInRange(mesh, face);
      var verts := ShadeFace(mesh, face, viewDir, points, projectedPoints, cam, project, sqrt);
      submitted := submitted + [verts];
      i := i + 1;
    }
  }

  // ---------- input ----------

  /** The eleven keys whose handlers only track whether they are held
      (the `xDown` ... `kDown` globals). */
  datatype HoldKey = X | Y | Z | W | A | S | D | E | Q | J | K

  /** The keys the handlers distinguish; every other key is `Other`. */
  datatype Key = Escape | Space | Hold(h: HoldKey) | Other(code: int)

  /** The global flags the handlers read and write; `held` is the set of
      hold keys whose flag is true. */
  datatype InputFlags = InputFlags(gameRunning: bool, spaceDown: bool, spinToggle: bool, held: set<HoldKey>)

  const InitialFlags: InputFlags := InputFlags(true, false, false, {})

  /** `manageKeyDownEvent`. */
  function KeyDown(f: InputFlags, k: Key): InputFlags
  {
    match k
    case Escape => f.(gameRunning := false)
    case Space => if f.spaceDown then f else f.(spinToggle := !f.spinToggle, spaceDown := true)
    case Hold(h) => if h in f.held then f else f.(held := f.held + {h})
    case Other(_) => f
  }

  /** `manageKeyUpEvent`; Escape is not handled on key-up. */
  function KeyUp(f: InputFlags, k: Key): InputFlags
  {
    match k
    case Space => if !f.spaceDown then f else f.(spaceDown := false)
    case Hold(h) => if h !in f.held then f else f.(held := f.held - {h})
    case _ => f
  }

  /** Space toggles the spin only on the press that finds it released, and
      marks it held; a repeated press without a release changes nothing. */
  lemma SpaceDownIsEdgeTriggered(f: InputFlags)
    ensures KeyDown(f, Space).spaceDown
    ensures KeyDown(f, Space).spinToggle == (f.spinToggle != !f.spaceDown)
    ensures KeyDown(f, Space) == f.(spinToggle := KeyDown(f, Space).spinToggle, spaceDown := true)
    ensures KeyDown(KeyDown(f, Space), Space) == KeyDown(f, Space)
  {
  }

  /** Releasing Space clears its held flag and never touches the toggle. */
  lemma SpaceUpKeepsToggle(f: InputFlags)
    ensures KeyUp(f, Space) == f.(spaceDown := false)
  {
  }

  /** Press, release, press: the toggle flips twice when Space started released. */
  lemma SpacePressReleasePress(f: InputFlags)
    requires !f.spaceDown
    ensures KeyDown(KeyUp(KeyDown(f, Space), Space), Space) == f.(spaceDown := true)
  {
  }

  /** A hold key's press sets only its own flag, its release clears only its
      own flag, and both are idempotent. */
  lemma HoldKeys(f: InputFlags, h: HoldKey)
    ensures KeyDown(f, Hold(h)) == f.(held := f.held + {h})
    ensures KeyUp(f, Hold(h)) == f.(held := f.held - {h})
    ensures KeyDown(KeyDown(f, Hold(h)), Hold(h)) == KeyDown(f, Hold(h))
    ensures KeyUp(KeyUp(f, Hold(h)), Hold(h)) == KeyUp(f, Hold(h))
  {
  }

  /** Escape on key-down only stops the game; on key-up, as for every other
      unlisted key, nothing changes. */
  lemma EscapeAndOtherKeys(f: InputFlags, code: int)
    ensures KeyDown(f, Escape) == f.(gameRunning := false)
    ensures KeyUp(f, Escape) == f
    ensures KeyDown(f, Other(code)) == f && KeyUp(f, Other(code)) == f
  {
  }

  /** The camera rotation after `manageMouseMotion`. */
  function MouseLook(rotation: V3, xrel: real, yrel: real): (r: V3)
    ensures -HalfPi <= r.x <= HalfPi
    ensures r.z == rotation.z + xrel * MouseSense
    ensures r.y == rotation.y
    ensures -HalfPi <= rotation.x + yrel * MouseSense <= HalfPi ==> r.x == rotation.x + yrel * MouseSense
  {
    var z := rotation.z + xrel * MouseSense;
    var x := rotation.x + yrel * MouseSense;
    V3(if x > HalfPi then HalfPi else if x < -HalfPi then -HalfPi else x, rotation.y, z)
  }

  /** The pitch test of `manageMouseMotion` is `clampd` to [-PI_2, PI_2]. */
  lemma MouseLookPitchIsClamp(rotation: V3, xrel: real, yrel: real)
    ensures MouseLook(rotation, xrel, yrel).x == Clampd(rotation.x + yrel * MouseSense, -HalfPi, HalfPi)
  {
  }

  /** The program's globals that the handlers update in place. */
  class Game {
    var gameRunning: bool
    var spaceDown: bool
    var spinToggle: bool
    var held: set<HoldKey>
    var cam: CamState

    function Flags(): InputFlags
      reads this
    {
      InputFlags(gameRunning, spaceDown, spinToggle, held)
    }

    constructor ()
      ensures Flags() == InitialFlags && cam == InitialCam
    {
      gameRunning := true;
      spaceDown, spinToggle := false, false;
      held := {};
      cam := InitialCam;
    }

    method QuitGame()
      modifies this
      ensures Flags() == old(Flags()).(gameRunning := false) && cam == old(cam)
    {
      gameRunning := false;
    }

    method ManageKeyDownEvent(k: Key)
      modifies this
      ensures Flags() == KeyDown(old(Flags()), k) && cam == old(cam)
    {
      match k {
        case Escape => QuitGame();
        case Space =>
          if !spaceDown {
            spinToggle := !spinToggle;
            spaceDown := true;
          }
        case Hold(h) =>
          if h !in held {
            held := held + {h};
          }
        case Other(_) =>
      }
    }

    method ManageKeyUpEvent(k: Key)
      modifies this
      ensures Flags() == KeyUp(old(Flags()), k) && cam == old(cam)
    {
      match k {
        case Space =>
          if spaceDown {
            spaceDown := false;
          }
        case Hold(h) =>
          if h in held {
            held := held - {h};
          }
        case _ =>
      }
    }

    /** Yaw follows the horizontal motion without bound; pitch follows the
        vertical motion and is held within [-PI_2, PI_2]. */
    method ManageMouseMotion(xrel: real, yrel: real)
      modifies this
      ensures Flags() == old(Flags())
      ensures cam == old(cam).(rotation := MouseLook(old(cam.rotation), xrel, yrel))
    {
      var deltaX := xrel * MouseSense;
      var deltaY := yrel * MouseSense;
      cam := cam.(rotation := cam.rotation.(z := cam.rotation.z + deltaX));
      cam := cam.(rotation := cam.rotation.(x := cam.rotation.x + deltaY));
      if cam.rotation.x > HalfPi {
        cam := cam.(rotation := cam.rotation.(x := HalfPi));
      } else if cam.rotation.x < -HalfPi {
        cam := cam.(rotation := cam.rotation.(x := -HalfPi));
      }
    }
  }
}
