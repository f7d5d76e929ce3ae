# SDL_cubeRenderer core, modelled in Dafny

This project models the logic core of a small C software renderer and proves properties of it. The core has three parts:

* **The Wavefront `.obj` loader** (`loadMeshFromOBJ`, `src/main/mesh.c`). It is a single pass over the lines of a file. It keeps `currentMeshIndex` (-1 until the first `o` line). It dispatches on the first character of each line, and on the second for `v ` and `vn`. It appends vertices, normals and faces to the current mesh. Geometry before any object is fatal, and so is a scan with the wrong field count.
* **The vector algebra** (`src/main/vector.c`): clamping, the 3D vector operations, the zero-length policy of `normalize` and `normalizev2`, and the scale-rotate-translate structure of `transformV3`.
* **The viewer's state machine** (`src/main/main.c`):
  * the key-down and key-up handlers over the global flags, including the edge-triggered `spinToggle`;
  * mouse-look, with unbounded yaw and pitch clamped to ±PI_2;
  * `project3DtoScreen` and its two failure guards;
  * the (0, 0) fallback of `projectPoints3DtoScreen`;
  * the cull-and-shade face loop of `render`.

Files and modules:

* `wrappers.dfy` (`Wrappers`): the `Option` type.
* `vector.dfy` (`Vector`): `v3`, `v2` and `Transform` as datatypes over `real`, and the vector functions with their lemmas.
  * `sqrt`, `sin`, `cos` and `tan` are not interpreted. They travel as a `MathLib` value of function parameters.
  * A lemma states, as a hypothesis, the one fact about them it needs. Examples: sqrt vanishes only at 0; cos 0 = 1 and sin 0 = 0.
* `mesh.dfy` (`MeshLoader`): the loader.
  * `Step` is one line of the dispatcher, as a pure function on a `ParserState`. `Load` folds it over a prefix of the file. A fatal line yields `Fatal(error)` where the C raises `SIGTERM`.
  * The imperative side is a `Mesh` class. Its `vertices`, `normals` and `faces` sequences grow in place, next to their counts.
  * `DispatchLine` is the body of the `while` loop: the `switch` applied in place to the `Mesh` objects. `LoadMeshFromObj` is the loop itself. Both are proved against `Step` and `Load`.
  * A second, declarative description says which files load and what each mesh then holds: `WellFormed`, `ObjectCount` and the per-object columns. `LoadCharacterised` proves the two descriptions agree.
* `viewer.dfy` (`Viewer`): the camera, the projection, the face loop and the input handlers.
  * The globals that the handlers write are the fields of a `Game` class. Each handler method is proved against a pure function: `KeyDown`, `KeyUp` or `MouseLook`.
  * `render` is the method `Render`. It returns the triangles it would hand to `SDL_RenderGeometry`, in order, and is proved equal to `RenderFaces`.

Representation choices:

* The eleven `xDown` … `kDown` booleans are one set, `held`, of `HoldKey` values. A key's flag is true exactly when the key is in the set.
* A file line is the contents of the `fgets` buffer as a `string`. `CharAt` returns NUL past the end, so for the empty line and for the one-character line `v`, the dispatch reads the terminator just as the C does.
* `sscanf` is a `Scanners` value: for each of the three formats, a function from the line to the scanned field count and the converted values. The count checks are modelled exactly.
* `project3DtoScreen` is modelled in full as `Project3DToScreen`.
  * `projectPoints3DtoScreen` and `render` take the per-frame projection as a parameter `project: V3 -> Option<V2>`. `None` means the C function returned 0.
  * `FrameProjection(info, sqrt)` is that parameter for the frame's `getCamProjectionInfo(&cam)`.
  * This way the face-loop proofs do not depend on the floating-point camera basis.
* `render` receives the mesh by value in the C. It takes a `MeshValue` here, and the three-element `points` and `projectedPoints` buffers are `array`s written in place.

## Model

| member | source | states |
|---|---|---|
| Vector.Clampi | src/main/vector.c:7-10 | If min <= max, the result lies in [min, max]. It equals d exactly when d is in range. Below the range it is min. Above max, or when min > max, it is max. |
| Vector.Clampd | src/main/vector.c:11-14 | The same bounds and identity-in-range as `clampi`, over reals. When min > max the result is max. |
| Vector.SubUndoesAdd | src/main/vector.c:22-35 | v3Sub(v3Add(a, b), b) == a. |
| Vector.AddCommutes | src/main/vector.c:22-28 | v3Add is commutative. |
| Vector.ScaleByOne | src/main/vector.c:15-21 | Scaling by 1 is the identity. |
| Vector.DotSymmetric | src/main/vector.c:36-38 | The dot product is symmetric. |
| Vector.CrossOrthogonal | src/main/vector.c:36-45 | The cross product is orthogonal to both of its arguments: both dot products are 0. |
| Vector.CrossAntiCommutes | src/main/vector.c:39-45 | cross(a, b) == -cross(b, a). |
| Vector.CrossSelfIsZero | src/main/vector.c:39-45 | cross(a, a) is the zero vector. |
| Vector.V3Scale | src/main/vector.c:15-21 | Transcribes `v3Scale`. Its property is `ScaleByOne`. |
| Vector.V3Add | src/main/vector.c:22-28 | Transcribes `v3Add`. Its properties are `AddCommutes` and `SubUndoesAdd`. |
| Vector.V3Sub | src/main/vector.c:29-35 | Transcribes `v3Sub`. Its property is `SubUndoesAdd`. |
| Vector.Dot | src/main/vector.c:36-38 | Transcribes `dotProduct`. Its properties are `DotSymmetric` and `CrossOrthogonal`. |
| Vector.Cross | src/main/vector.c:39-45 | Transcribes `crossProduct`. Its properties are `CrossOrthogonal`, `CrossAntiCommutes` and `CrossSelfIsZero`. |
| Vector.V3Len | src/main/vector.c:46-48 | Transcribes `v3Len`. `NormalizeZeroPolicy` states when it is non-zero. |
| Vector.Normalize | src/main/vector.c:49-53 | Transcribes `normalize`. Its zero-length policy is `NormalizeZeroPolicy` and `NormalizeZero`. |
| Vector.ScaleV2 | src/main/vector.c:55-60 | Transcribes `scalev2`, used by `NormalizeV2`. |
| Vector.V2Len | src/main/vector.c:62 | The length `normalizev2` computes inline. `NormalizeV2ZeroPolicy` states when it is non-zero. |
| Vector.NormalizeV2 | src/main/vector.c:61-65 | Transcribes `normalizev2`. Its zero-length policy is `NormalizeV2ZeroPolicy` and `NormalizeV2Zero`. |
| Vector.TransformWith | src/main/vector.c:70-96 | The body of `transformV3` once the six cosines and sines are known. Its properties are `TransformStages`, `TransformIdentity` and `TransformTranslatesLast`. |
| Vector.TransformV3 | src/main/vector.c:69-99 | Transcribes `transformV3`: the libm cos and sin of the three angles, then `TransformWith`. Its property is `TransformV3Identity`. |
| Vector.NormalizeZeroPolicy | src/main/vector.c:46-53 | When sqrt vanishes only at 0: the zero vector comes back unchanged. A vector with non-zero squared length has non-zero length, and comes back divided by it. |
| Vector.NormalizeZero | src/main/vector.c:49-53 | With only sqrt(0) = 0, normalize of the zero vector is the zero vector. |
| Vector.NormalizeV2ZeroPolicy | src/main/vector.c:55-65 | The same zero-length policy for `normalizev2`. |
| Vector.NormalizeV2Zero | src/main/vector.c:61-65 | With only sqrt(0) = 0, normalizev2 of the zero vector is the zero vector. |
| Vector.TransformStages | src/main/vector.c:69-99 | transformV3 with given cos and sin values is: componentwise scale, then the rotation matrix, then adding the position. |
| Vector.TransformIdentity | src/main/vector.c:69-99 | Scale (1,1,1), position 0, every cosine 1 and every sine 0 leave every point unchanged. |
| Vector.TransformTranslatesLast | src/main/vector.c:93-96 | The position is added after scaling and rotating: the result is the position-free transform plus the position. |
| Vector.TransformV3Identity | src/main/vector.c:69-99 | With cos 0 = 1 and sin 0 = 0, the identity Transform maps every point to itself. |
| MeshLoader.ToBase0 | src/main/mesh.c:79-82 | Transcribes the scan and the base-0 decrement. It has no contract of its own: `FaceLine` states that the stored face is Tri(a-1, b-1, c-1, n-1), and `LoadCharacterised` carries it into every face column. |
| MeshLoader.Step | src/main/mesh.c:49-177 | One line keeps currentMeshIndex equal to the last mesh's index and advances lineNumb by one. A fatal line reports that new line number. |
| MeshLoader.Load | src/main/mesh.c:46-178 | After a prefix, the state is consistent and lineNumb is the number of lines read. An error names a line of the prefix (1-based). |
| MeshLoader.ObjectLine | src/main/mesh.c:102-114 | An `o` line appends exactly one empty mesh (no vertices, normals or faces) and makes it current. The meshes before it are unchanged. |
| MeshLoader.VertexLine | src/main/mesh.c:125-144 | A `v ` line that scans 3 values appends that vertex at index old vertexCount of the current mesh. That mesh's normals and faces, and every other mesh, are unchanged. |
| MeshLoader.NormalLine | src/main/mesh.c:147-166 | A `vn` line that scans 3 values appends that normal at index old normalCount of the current mesh. Nothing else changes. |
| MeshLoader.FaceLine | src/main/mesh.c:78-90 | An `f` line that scans 4 fields appends Tri(a-1, b-1, c-1, n-1). The normal comes from the first group alone. Nothing else changes. |
| MeshLoader.GeometryBeforeObjectIsFatal | src/main/mesh.c:117-123 | Any `f` line (mesh.c:65-68), or any line starting with `v` whatever follows it, before the first `o` line is fatal at that line. |
| MeshLoader.WrongFieldCountIsFatal | src/main/mesh.c:84-87 | A face scan other than 4 fields is fatal with the count it got. So is a `v `/`vn` scan other than 3 fields (mesh.c:137-140, 159-162). |
| MeshLoader.IgnoredLine | src/main/mesh.c:50-61 | These lines only advance the line number: `#`, `m`, `u`, `l` and `s` lines (mesh.c:94-99), any unknown first character (mesh.c:174-176), and `v` followed by neither space nor `n` (mesh.c:167-169). |
| MeshLoader.ColumnsEmptyBeyond | src/main/mesh.c:102-114 | An object not yet declared owns no vertices, normals or faces. |
| MeshLoader.StepDescribes | src/main/mesh.c:49-177 | A line succeeds exactly when it is acceptable after the objects declared so far. It then keeps the meshes equal to the declarative description. |
| MeshLoader.LoadCharacterised | src/main/mesh.c:46-178 | The loader succeeds exactly on well-formed files. It then holds one mesh per `o` line, in file order, each with the vertices, normals and faces listed under it, in file order. |
| MeshLoader.MeshCountIsObjectCount | src/main/mesh.c:198 | On completion, currentMeshIndex + 1 (the stored meshCount) is the number of `o` lines. |
| MeshLoader.FatalPersists | src/main/mesh.c:84-87 | Once a line is fatal, the rest of the file does not matter: the result is that error. |
| MeshLoader.FatalAtFirstBadLine | src/main/mesh.c:43-49 | The error reports the number of the first unacceptable line, counting from 1. |
| MeshLoader.Mesh.constructor | src/main/mesh.c:113 | A new mesh is zeroed: all arrays are empty and all counts are 0. |
| MeshLoader.Mesh.AppendVertex | src/main/mesh.c:126-143 | The vertex array grows by one and vertexCount is incremented. The vertex is written at index old vertexCount. Nothing else changes. |
| MeshLoader.Mesh.AppendNormal | src/main/mesh.c:148-165 | The same for normals and normalCount. |
| MeshLoader.Mesh.AppendFace | src/main/mesh.c:70-90 | The same for faces and faceCount. |
| MeshLoader.DispatchLine | src/main/mesh.c:50-177 | The in-place `switch` does to the old values of the meshes what `Step` does, or returns `Step`'s error. On an error no mesh is added and no mesh's arrays or counts change (mesh.c:84-89, 137-143, 159-165). The meshes stay distinct objects and each keeps its counts equal to its array lengths. |
| MeshLoader.LoadMeshFromObj | src/main/mesh.c:28-200 | Models `loadMeshFromOBJ` as a whole. A file that does not open gives `OpenFailed`. A fatal file gives `Aborted` with `Load`'s error. Otherwise the result holds fresh, distinct meshes whose values are `Load`'s meshes, and meshCount is their number. |
| Viewer.GetCamProjectionInfo | src/main/main.c:91-118 | Transcribes `getCamProjectionInfo`. Its property is `PlaneAheadOfCamera`; the rest is listed under Left out. |
| Viewer.Project3DToScreen | src/main/main.c:122-153 | Projection fails exactly when abs(ray·normal) < 1e-6 (main.c:129) or t <= 0 (main.c:132). |
| Viewer.HitOnPlane | src/main/main.c:131-138 | Whenever a point projects, the intersection point lies on the projection plane. |
| Viewer.PlaneAheadOfCamera | src/main/main.c:105-109 | The projection plane is CAM_CLIP_MIN along the view normal from the camera, and the camera position is carried over unchanged. |
| Viewer.OrOrigin | src/main/main.c:163-169 | Transcribes the per-point choice. It has no contract of its own: `ProjectPoints3DToScreen` states the (0, 0) fallback for every i < n, and `FrameFallback` ties it to `project3DtoScreen`'s failure. |
| Viewer.FrameFallback | src/main/main.c:157-171 | Against the frame's camera, a point falls back to (0, 0) when `project3DtoScreen` fails for it. Otherwise it gets that function's result. |
| Viewer.ProjectPoints3DToScreen | src/main/main.c:157-171 | For every i < n, projected[i] is the projection of v[i] when there is one and (0, 0) otherwise. Nothing else in `projected` changes. |
| Viewer.Intensity | src/main/main.c:277-284 | The grey level lies in [0, 1]. It is min(-facing, 1) for a facing value <= 0, and 0 otherwise. |
| Viewer.IntensityIsClamp | src/main/main.c:279-284 | The negate-and-clamp is `clampd(-facing, 0, 1)`. |
| Viewer.FaceSubmission | src/main/main.c:269-295 | The triangle `render` submits for one face: the three projected corners, each with the same grey. Its properties are `SubmittedShading`, and `ShadeFace` computes it in place. |
| Viewer.RenderFaces | src/main/main.c:256-297 | The triangles `render` submits for the first n faces, in order. Its properties are `RenderFacesAreFrontFaces` and `SubmittedShading`, and `Render` computes it. |
| Viewer.RenderFacesNext | src/main/main.c:256-263 | One more face adds its triangle exactly when it is not culled. |
| Viewer.FrontFaces | src/main/main.c:256-263 | Every listed index is below n and names a face that the cull test keeps. |
| Viewer.FrontFacesIncreasing | src/main/main.c:256 | Faces are visited in index order: the surviving indices strictly increase. |
| Viewer.FrontFacesMembers | src/main/main.c:259-263 | A face is visited and kept exactly when dot(normal[n0], viewDir) is not > 0. |
| Viewer.RenderFacesAreFrontFaces | src/main/main.c:256-297 | `render` submits exactly one triangle per surviving face, in index order, each built from that face. |
| Viewer.SubmittedShading | src/main/main.c:277-295 | Every submitted triangle comes from a face that is not culled. It has one opaque grey colour on all three vertices, and its level lies in [0, 1] and is min(-facing, 1). |
| Viewer.ShadeFace | src/main/main.c:269-295 | Copying the corners, clamping the intensity, projecting the three points and building the vertices yields exactly that face's submission. |
| Viewer.Render | src/main/main.c:243-300 | The face loop hands over exactly `RenderFaces` for all faces: the surviving faces, in order, shaded and projected. It asks only for the reads `render` makes: every face's first vertex and normal (main.c:259-261), and the other two vertices only of faces that are drawn (main.c:269-271). |
| Viewer.KeyDown | src/main/main.c:310-373 | Transcribes the `switch` of `manageKeyDownEvent` over the flags. Its properties are `SpaceDownIsEdgeTriggered`, `HoldKeys`, `EscapeAndOtherKeys` and `SpacePressReleasePress`. |
| Viewer.KeyUp | src/main/main.c:375-433 | Transcribes the `switch` of `manageKeyUpEvent`. Its properties are `SpaceUpKeepsToggle`, `HoldKeys`, `EscapeAndOtherKeys` and `SpacePressReleasePress`. |
| Viewer.SpaceDownIsEdgeTriggered | src/main/main.c:316-320 | A Space key-down flips spinToggle only if spaceDown was false, and then sets spaceDown. A repeated key-down without a key-up changes nothing. |
| Viewer.SpaceUpKeepsToggle | src/main/main.c:377-380 | A Space key-up clears spaceDown and changes nothing else, spinToggle included. |
| Viewer.SpacePressReleasePress | src/main/main.c:316-320 | From a released Space: press, release, press flips the toggle twice and leaves Space held. |
| Viewer.HoldKeys | src/main/main.c:322-367 | A hold key's key-down sets only its own flag, and its key-up (main.c:382-427) clears only its own flag. Both are idempotent. |
| Viewer.EscapeAndOtherKeys | src/main/main.c:310-314 | Escape key-down only clears gameRunning. Escape on key-up, and every unlisted key in either handler (main.c:369-371, 429-431), change nothing. |
| Viewer.MouseLook | src/main/main.c:435-449 | The pitch lies in [-PI_2, PI_2], and it is the moved pitch whenever that is in range. The yaw grows by exactly xrel * 0.005 with no bound. The roll is unchanged. |
| Viewer.MouseLookPitchIsClamp | src/main/main.c:444-448 | The pitch test is `clampd` to [-PI_2, PI_2]. |
| Viewer.Game.constructor | src/main/main.c:56-82 | The globals start with the game running, every key flag false, the spin off, and the camera at (0, -2, 0) looking along +y with +z up. |
| Viewer.Game.QuitGame | src/main/main.c:305-308 | Only gameRunning changes, to false. |
| Viewer.Game.ManageKeyDownEvent | src/main/main.c:310-373 | The flags become `KeyDown` of the old flags, and the camera is unchanged. |
| Viewer.Game.ManageKeyUpEvent | src/main/main.c:375-433 | The flags become `KeyUp` of the old flags, and the camera is unchanged. |
| Viewer.Game.ManageMouseMotion | src/main/main.c:435-449 | The camera rotation becomes `MouseLook` of the old rotation. The camera position and all flags are unchanged. |

## Left out

- File handling is input/output, so the loader takes the file's lines; a file that does not open is `None`. Left out: building the path with `snprintf` and `fopen`/`fgets`/`fclose`. `fgets` reads at most 511 characters into the 512-byte buffer (mesh.h:11, mesh.c:46). A line of 511 or more characters before its newline is not truncated: it arrives as several buffers, each counted and dispatched. When the rest is only the newline, that buffer is "\n", which the `default` branch ignores (mesh.c:174-176). A model line is one such buffer, so this case is covered by the input the caller gives.
- All `printf`/`puts` logging, including the wrong variable printed in the normal-count message (mesh.c:160).
- The conversion details of `sscanf` (`%lf` syntax, `%i` accepting hex and octal) are a libc call. They are the `Scanners` parameter; only the field counts and the stored values matter to the model.
- `realloc` failure branches, because sequences grow without failing; with them go the fatal out-of-memory path and `freeMesh`, which is ownership cleanup. `Mesh.color` is never read by the core.
- `raise(SIGTERM)` (mesh.c:67, 86, 120, 139, 161) is taken to end the process, so `Fatal` ends the load. This holds under the default action of SIGTERM. When a handler has been installed that returns, as `SDL_Init` may do before the load, `raise` returns and the `switch` goes on: a wrong field count then stores the partially scanned face, vertex or normal, and geometry before any `o` line indexes `meshArr[-1]`. The model does not capture that continuation.
- When the file does not open, the code returns NULL without writing `*meshCount`. The model follows the code: `OpenFailed` carries no count. A count of 0 would match the comment at mesh.c:27, which says the function sets meshCount to the number of meshes.
- Integer width: counts and indices are unbounded `int`/`nat`. Not modelled: overflow of `currentMeshIndex++` or `faceCount++`, `size_t`, and decrementing an `INT_MIN` index in `ToBase0`.
- MeshLoader.LoadMeshFromObj: the loader does not check that face indices point at existing vertices and normals, and neither does the model. An out-of-range read in `render` is undefined behaviour in C, not something a model can state. So `Viewer.Render` and the face-loop lemmas require `RenderableFaces`: every face's `v0` and `n0` are in range (the cull test reads them, main.c:259-261), and so are `v1` and `v2` of each face that is not culled (main.c:269-271). A culled face may hold any `v1` and `v2`, as in C.
- Everything SDL: window and renderer setup, clearing and presenting, event polling, timing and FPS output, and `main` itself. `SDL_RenderGeometry` calls are the `Submission` values that `Render` returns.
- `update()` (main.c:175-240) does four numeric things. It turns `meshTrans` by `PI * k * delta` for the spin and for each held X/Y/Z key. It adds `0.1 * delta` to each scale component while J is held, and subtracts it while K is held. It moves the camera in the x-y plane along the W/A/S/D direction, rotated by cos and sin of the yaw. It moves the camera by `2 * delta` down along z while Q is held and up while E is held (main.c:233-239). It leaves the core's state machine alone. `meshTrans` is never applied to the mesh, and `sun` is unused.
- The unchecked `meshes[0]` in `main` after a load that may have failed is driver plumbing.
- Floating point: `double` is `real`, so rounding, NaN, infinities and bit-exactness of the 1e-6 threshold are not modelled. The values of `sqrt`, `sin`, `cos` and `tan` are parameters; only the facts a lemma names are assumed.
- Viewer.GetCamProjectionInfo: modelled but not proved about beyond `PlaneAheadOfCamera`. The meaning of the rotated basis and of `fov_scale` is floating-point geometry. It requires tan(CAM_FOV/2) != 0, because dividing by zero is undefined on `real`, where C would yield infinity.
- Viewer.Render and Viewer.ProjectPoints3DToScreen: the projection is the parameter `project`, not a call to `getCamProjectionInfo(&cam)` inside the loop. `FrameProjection` and `FrameFallback` connect the two. The camera does not change during a frame.
- Vector.NormalizeZeroPolicy: the non-zero case is stated for vectors of non-zero squared length, not for all non-zero vectors. A sum of three squares is zero only at the origin, but that is nonlinear real arithmetic the verifier does not close. The same holds for Vector.NormalizeV2ZeroPolicy.
