/** The Wavefront .obj loader: a single pass over the lines of a file that
    keeps the index of the current object, dispatches on the first character
    of each line (and on the second for `v`/`vn`), and appends vertices,
    normals and faces to the current mesh.

    The pure function `Load` states what a prefix of the file does to the
    parser state; the method `LoadMeshFromObj` does the same work in place
    on `Mesh` objects and is proved against `Load`.  A second, declarative
    description (`WellFormed` and the per-object columns) says which files
    load and what each mesh then holds, and `LoadCharacterised` connects the
    two. */
module MeshLoader {
  import opened Vector
  import opened Wrappers

  /** A triangle: three vertex indices and the index of one normal. */
  datatype Tri = Tri(v0: int, v1: int, v2: int, n0: int)

  /** The arrays of a mesh as values; the count of each is its length. */
  datatype MeshValue = MeshValue(vertices: seq<V3>, normals: seq<V3>, faces: seq<Tri>)

  /** What `(Mesh){0}` holds. */
  const EmptyMesh: MeshValue := MeshValue([], [], [])

  // ---------- the scanning the loader delegates to sscanf ----------

  /** A `%lf %lf %lf` scan: how many fields were converted, and the values. */
  datatype Scan3 = Scan3(count: int, value: V3)

  /** The face scan `f %i/%*i/%i %i/%*i/%*i %i/%*i/%*i`: the count and the
      four stored integers, in the order they are converted. */
  datatype ScanFace = ScanFace(count: int, v0: int, n0: int, v1: int, v2: int)

  /** The three scans, as functions of the line. */
  datatype Scanners = Scanners(vertex: string -> Scan3, normal: string -> Scan3, face: string -> ScanFace)

  /** The face a scan describes, with its 1-based indices made 0-based. */
  function ToBase0(s: ScanFace): Tri
  {
    Tri(s.v0 - 1, s.v1 - 1, s.v2 - 1, s.n0 - 1)
  }

  // ---------- parser state and one step ----------

  /** The two ways the loader stops the process: geometry before any `o`
      line, or a scan that converted the wrong number of fields. Each
      carries the 1-based number of the line. */
  datatype LoadError =
    | GeometryBeforeObject(line: nat)
    | FieldCount(line: nat, scanned: int, expected: nat)

  datatype ParserState = ParserState(meshes: seq<MeshValue>, currentMeshIndex: int, lineNumb: nat)

  datatype Parse = Parsed(state: ParserState) | Fatal(error: LoadError)

  const Start: ParserState := ParserState([], -1, 0)

  /** The index of the current object is always that of the last mesh
      (-1 while there is none). */
  predicate Consistent(st: ParserState)
  {
    st.currentMeshIndex == |st.meshes| - 1
  }

  /** Character `i` of a line buffer; past the end the buffer holds its
      terminating NUL. */
  function CharAt(s: string, i: nat): char
  {
    if i < |s| then s[i] else '\0'
  }

  function AddVertex(m: MeshValue, v: V3): MeshValue { m.(vertices := m.vertices + [v]) }
  function AddNormal(m: MeshValue, n: V3): MeshValue { m.(normals := m.normals + [n]) }
  function AddFace(m: MeshValue, t: Tri): MeshValue { m.(faces := m.faces + [t]) }

  /** One line of the dispatcher. */
  function Step(st: ParserState, line: string, sc: Scanners): (r: Parse)
    requires Consistent(st)
    ensures r.Parsed? ==> Consistent(r.state) && r.state.lineNumb == st.lineNumb + 1
    ensures r.Fatal? ==> r.error.line == st.lineNumb + 1
  {
    var ln := st.lineNumb + 1;
    var cur := st.currentMeshIndex;
    var next := st.(lineNumb := ln);
    match CharAt(line, 0)
    case 'f' =>
      if cur == -1 then Fatal(GeometryBeforeObject(ln))
      else
        var s := sc.face(line);
        if s.count != 4 then Fatal(FieldCount(ln, s.count, 4))
        else Parsed(next.(meshes := st.meshes[cur := AddFace(st.meshes[cur], ToBase0(s))]))
    case 'o' =>
      Parsed(ParserState(st.meshes + [EmptyMesh], cur + 1, ln))
    case 'v' =>
      if cur == -1 then Fatal(GeometryBeforeObject(ln))
      else (
        match CharAt(line, 1)
        case ' ' =>
          var s := sc.vertex(line);
          if s.count != 3 then Fatal(FieldCount(ln, s.count, 3))
          else Parsed(next.(meshes := st.meshes[cur := AddVertex(st.meshes[cur], s.value)]))
        case 'n' =>
          var s := sc.normal(line);
          if s.count != 3 then Fatal(FieldCount(ln, s.count, 3))
          else Parsed(next.(meshes := st.meshes[cur := AddNormal(st.meshes[cur], s.value)]))
        case _ => Parsed(next)
      )
    case _ => Parsed(next)
  }

  /** The parser state after the first `|lines|` lines, or the error that
      stopped it. */
  function Load(lines: seq<string>, sc: Scanners): (r: Parse)
    ensures r.Parsed? ==> Consistent(r.state) && r.state.lineNumb == |lines|
    ensures r.Fatal? ==> 1 <= r.error.line <= |lines|
    decreases |lines|
  {
    if lines == [] then Parsed(Start)
    else
      match Load(lines[..|lines| - 1], sc)
      case Fatal(e) => Fatal(e)
      case Parsed(st) => Step(st, lines[|lines| - 1], sc)
  }

  // ---------- per-line behaviour ----------

  /** An `o` line appends one empty mesh, makes it current, and leaves the
      meshes already loaded as they were. */
  lemma ObjectLine(st: ParserState, line: string, sc: Scanners)
    requires Consistent(st) && CharAt(line, 0) == 'o'
    ensures Step(st, line, sc).Parsed?
    ensures var s := Step(st, line, sc).state;
            |s.meshes| == |st.meshes| + 1 && s.meshes[..|st.meshes|] == st.meshes &&
            s.meshes[|st.meshes|] == EmptyMesh && s.currentMeshIndex == |st.meshes|
  {
  }

  /** A `v ` line that scans three values appends that vertex to the current
      mesh at index old vertex count; nothing else changes. */
  lemma VertexLine(st: ParserState, line: string, sc: Scanners)
    requires Consistent(st) && st.meshes != []
    requires CharAt(line, 0) == 'v' && CharAt(line, 1) == ' ' && sc.vertex(line).count == 3
    ensures Step(st, line, sc).Parsed?
    ensures var s := Step(st, line, sc).state;
            var c := st.currentMeshIndex;
            |s.meshes| == |st.meshes| && s.currentMeshIndex == c &&
            (forall j :: 0 <= j < |st.meshes| && j != c ==> s.meshes[j] == st.meshes[j]) &&
            |s.meshes[c].vertices| == |st.meshes[c].vertices| + 1 &&
            s.meshes[c].vertices[|st.meshes[c].vertices|] == sc.vertex(line).value &&
            s.meshes[c].vertices[..|st.meshes[c].vertices|] == st.meshes[c].vertices &&
            s.meshes[c].normals == st.meshes[c].normals && s.meshes[c].faces == st.meshes[c].faces
  {
  }

  /** A `vn` line that scans three values appends that normal to the current
      mesh at index old normal count; nothing else changes. */
  lemma NormalLine(st: ParserState, line: string, sc: Scanners)
    requires Consistent(st) && st.meshes != []
    requires CharAt(line, 0) == 'v' && CharAt(line, 1) == 'n' && sc.normal(line).count == 3
    ensures Step(st, line, sc).Parsed?
    ensures var s := Step(st, line, sc).state;
            var c := st.currentMeshIndex;
            |s.meshes| == |st.meshes| && s.currentMeshIndex == c &&
            (forall j :: 0 <= j < |st.meshes| && j != c ==> s.meshes[j] == st.meshes[j]) &&
            |s.meshes[c].normals| == |st.meshes[c].normals| + 1 &&
            s.meshes[c].normals[|st.meshes[c].normals|] == sc.normal(line).value &&
            s.meshes[c].normals[..|st.meshes[c].normals|] == st.meshes[c].normals &&
            s.meshes[c].vertices == st.meshes[c].vertices && s.meshes[c].faces == st.meshes[c].faces
  {
  }

  /** An `f` line that scans four fields appends the face with all four
      indices made 0-based; the normal index comes from the first vertex
      group alone. */
  lemma FaceLine(st: ParserState, line: string, sc: Scanners)
    requires Consistent(st) && st.meshes != []
    requires CharAt(line, 0) == 'f' && sc.face(line).count == 4
    ensures Step(st, line, sc).Parsed?
    ensures var s := Step(st, line, sc).state;
            var c := st.currentMeshIndex;
            var f := sc.face(line);
            |s.meshes| == |st.meshes| && s.currentMeshIndex == c &&
            (forall j :: 0 <= j < |st.meshes| && j != c ==> s.meshes[j] == st.meshes[j]) &&
            s.meshes[c].faces == st.meshes[c].faces + [Tri(f.v0 - 1, f.v1 - 1, f.v2 - 1, f.n0 - 1)] &&
            s.meshes[c].vertices == st.meshes[c].vertices && s.meshes[c].normals == st.meshes[c].normals
  {
  }

  /** Any `f` or `v` line before the first `o` line is fatal, whatever
      follows the `v` (so `vt` lines too). */
  lemma GeometryBeforeObjectIsFatal(st: ParserState, line: string, sc: Scanners)
    requires Consistent(st) && st.meshes == []
    requires CharAt(line, 0) == 'f' || CharAt(line, 0) == 'v'
    ensures Step(st, line, sc) == Fatal(GeometryBeforeObject(st.lineNumb + 1))
  {
  }

  /** A face scan other than 4 fields, or a vertex or normal scan other than
      3, is fatal with the count it got. */
  lemma WrongFieldCountIsFatal(st: ParserState, line: string, sc: Scanners)
    requires Consistent(st) && st.meshes != []
    ensures CharAt(line, 0) == 'f' && sc.face(line).count != 4 ==>
              Step(st, line, sc) == Fatal(FieldCount(st.lineNumb + 1, sc.face(line).count, 4))
    ensures CharAt(line, 0) == 'v' && CharAt(line, 1) == ' ' && sc.vertex(line).count != 3 ==>
              Step(st, line, sc) == Fatal(FieldCount(st.lineNumb + 1, sc.vertex(line).count, 3))
    ensures CharAt(line, 0) == 'v' && CharAt(line, 1) == 'n' && sc.normal(line).count != 3 ==>
              Step(st, line, sc) == Fatal(FieldCount(st.lineNumb + 1, sc.normal(line).count, 3))
  {
  }

  /** Comments, material lines, line elements, smoothing groups, unknown
      lines, and `v` lines that are neither `v ` nor `vn` only advance the
      line number. */
  lemma IgnoredLine(st: ParserState, line: string, sc: Scanners)
    requires Consistent(st)
    requires CharAt(line, 0) !in {'f', 'o', 'v'} ||
             (CharAt(line, 0) == 'v' && st.meshes != [] && CharAt(line, 1) !in {' ', 'n'})
    ensures Step(st, line, sc) == Parsed(st.(lineNumb := st.lineNumb + 1))
  {
  }

  // ---------- a declarative description of a loadable file ----------

  predicate IsObjectLine(line: string) { CharAt(line, 0) == 'o' }
  predicate IsVertexLine(line: string) { CharAt(line, 0) == 'v' && CharAt(line, 1) == ' ' }
  predicate IsNormalLine(line: string) { CharAt(line, 0) == 'v' && CharAt(line, 1) == 'n' }
  predicate IsFaceLine(line: string) { CharAt(line, 0) == 'f' }

  /** The number of `o` lines. */
  function ObjectCount(lines: seq<string>): nat
    decreases |lines|
  {
    if lines == [] then 0
    else ObjectCount(lines[..|lines| - 1]) + (if IsObjectLine(lines[|lines| - 1]) then 1 else 0)
  }

  /** Whether a line is acceptable after `objects` `o` lines: geometry needs
      an object, and every scan must convert the expected number of fields. */
  predicate LineAccepted(objects: nat, line: string, sc: Scanners)
  {
    match CharAt(line, 0)
    case 'f' => objects > 0 && sc.face(line).count == 4
    case 'v' => objects > 0 && (!IsVertexLine(line) || sc.vertex(line).count == 3)
                            && (!IsNormalLine(line) || sc.normal(line).count == 3)
    case _ => true
  }

  ghost predicate WellFormed(lines: seq<string>, sc: Scanners)
  {
    forall j :: 0 <= j < |lines| ==> LineAccepted(ObjectCount(lines[..j]), lines[j], sc)
  }

  /** The vertices of `v ` lines that follow the `k`-th `o` line (counting
      from 0) and precede the next one, in file order. */
  function VertexColumn(lines: seq<string>, k: nat, sc: Scanners): seq<V3>
    decreases |lines|
  {
    if lines == [] then []
    else
      var init, line := lines[..|lines| - 1], lines[|lines| - 1];
      if IsVertexLine(line) && ObjectCount(init) == k + 1
      then VertexColumn(init, k, sc) + [sc.vertex(line).value]
      else VertexColumn(init, k, sc)
  }

  /** Likewise for the normals of `vn` lines. */
  function NormalColumn(lines: seq<string>, k: nat, sc: Scanners): seq<V3>
    decreases |lines|
  {
    if lines == [] then []
    else
      var init, line := lines[..|lines| - 1], lines[|lines| - 1];
      if IsNormalLine(line) && ObjectCount(init) == k + 1
      then NormalColumn(init, k, sc) + [sc.normal(line).value]
      else NormalColumn(init, k, sc)
  }

  /** Likewise for the faces of `f` lines, made 0-based. */
  function FaceColumn(lines: seq<string>, k: nat, sc: Scanners): seq<Tri>
    decreases |lines|
  {
    if lines == [] then []
    else
      var init, line := lines[..|lines| - 1], lines[|lines| - 1];
      if IsFaceLine(line) && ObjectCount(init) == k + 1
      then FaceColumn(init, k, sc) + [ToBase0(sc.face(line))]
      else FaceColumn(init, k, sc)
  }

  /** The mesh the declarative description expects for the `k`-th object. */
  function ExpectedMesh(lines: seq<string>, k: nat, sc: Scanners): MeshValue
  {
    MeshValue(VertexColumn(lines, k, sc), NormalColumn(lines, k, sc), FaceColumn(lines, k, sc))
  }

  /** An object that has not been declared yet owns no lines. */
  lemma {:induction false} ColumnsEmptyBeyond(lines: seq<string>, k: nat, sc: Scanners)
    requires k >= ObjectCount(lines)
    ensures ExpectedMesh(lines, k, sc) == EmptyMesh
    decreases |lines|
  {
    if lines != [] {
      ColumnsEmptyBeyond(lines[..|lines| - 1], k, sc);
    }
  }

  lemma WellFormedPrefix(lines: seq<string>, sc: Scanners)
    requires lines != [] && WellFormed(lines, sc)
    ensures WellFormed(lines[..|lines| - 1], sc)
  {
    var init := lines[..|lines| - 1];
    forall j | 0 <= j < |init|
      ensures LineAccepted(ObjectCount(init[..j]), init[j], sc)
    {
      assert init[..j] == lines[..j];
    }
  }

  lemma WellFormedExtend(lines: seq<string>, sc: Scanners)
    requires lines != []
    requires WellFormed(lines[..|lines| - 1], sc)
    requires LineAccepted(ObjectCount(lines[..|lines| - 1]), lines[|lines| - 1], sc)
    ensures WellFormed(lines, sc)
  {
    var init := lines[..|lines| - 1];
    forall j | 0 <= j < |lines|
      ensures LineAccepted(ObjectCount(lines[..j]), lines[j], sc)
    {
      if j < |init| {
        assert init[..j] == lines[..j];
      }
    }
  }

  /** A mesh state agrees with the declarative description of `lines`. */
  ghost predicate Describes(meshes: seq<MeshValue>, lines: seq<string>, sc: Scanners)
  {
    |meshes| == ObjectCount(lines) &&
    forall k :: 0 <= k < |meshes| ==> meshes[k] == ExpectedMesh(lines, k, sc)
  }

  /** One accepted line keeps the state in agreement with the description. */
  lemma StepDescribes(lines: seq<string>, st: ParserState, sc: Scanners)
    requires lines != [] && Consistent(st)
    requires Describes(st.meshes, lines[..|lines| - 1], sc)
    ensures var init, line := lines[..|lines| - 1], lines[|lines| - 1];
            Step(st, line, sc).Parsed? <==> LineAccepted(ObjectCount(init), line, sc)
    ensures Step(st, lines[|lines| - 1], sc).Parsed? ==>
              Describes(Step(st, lines[|lines| - 1], sc).state.meshes, lines, sc)
  {
    var init, line := lines[..|lines| - 1], lines[|lines| - 1];
    var r := Step(st, line, sc);
    if r.Parsed? {
      var ms := r.state.meshes;
      if IsObjectLine(line) {
        ColumnsEmptyBeyond(init, |st.meshes|, sc);
        forall k | 0 <= k < |ms|
          ensures ms[k] == ExpectedMesh(lines, k, sc)
        {
          if k < |st.meshes| {
            assert ms[k] == st.meshes[k];
          }
        }
      } else {
        forall k | 0 <= k < |ms|
          ensures ms[k] == ExpectedMesh(lines, k, sc)
        {
          assert ExpectedMesh(init, k, sc) == st.meshes[k];
        }
      }
    }
  }

  /** The loader succeeds exactly on well-formed files, and then it holds one
      mesh per `o` line, in file order, each with the vertices, normals and
      faces declared under it, in file order. */
  lemma {:induction false} LoadCharacterised(lines: seq<string>, sc: Scanners)
    ensures Load(lines, sc).Parsed? <==> WellFormed(lines, sc)
    ensures Load(lines, sc).Parsed? ==> Describes(Load(lines, sc).state.meshes, lines, sc)
    decreases |lines|
  {
    if lines != [] {
      var init := lines[..|lines| - 1];
      LoadCharacterised(init, sc);
      match Load(init, sc)
      case Fatal(_) =>
        if WellFormed(lines, sc) {
          WellFormedPrefix(lines, sc);
        }
      case Parsed(st) =>
        StepDescribes(lines, st, sc);
        if Load(lines, sc).Parsed? {
          WellFormedExtend(lines, sc);
        }
    }
  }

  /** The number of meshes reported is the number of `o` lines. */
  lemma MeshCountIsObjectCount(lines: seq<string>, sc: Scanners)
    requires Load(lines, sc).Parsed?
    ensures Load(lines, sc).state.currentMeshIndex + 1 == ObjectCount(lines)
  {
    LoadCharacterised(lines, sc);
  }

  /** Once a prefix of the file is fatal, the whole file is, with the same error. */
  lemma {:induction false} FatalPersists(lines: seq<string>, m: nat, sc: Scanners)
    requires m <= |lines| && Load(lines[..m], sc).Fatal?
    ensures Load(lines, sc) == Load(lines[..m], sc)
    decreases |lines|
  {
    if m < |lines| {
      var init := lines[..|lines| - 1];
      assert init[..m] == lines[..m];
      FatalPersists(init, m, sc);
    } else {
      assert lines[..m] == lines;
    }
  }

  /** The error reports the first line that is not accepted, numbered from 1. */
  lemma FatalAtFirstBadLine(lines: seq<string>, j: nat, sc: Scanners)
    requires j < |lines| && WellFormed(lines[..j], sc)
    requires !LineAccepted(ObjectCount(lines[..j]), lines[j], sc)
    ensures Load(lines, sc).Fatal? && Load(lines, sc).error.line == j + 1
  {
    var p := lines[..j + 1];
    assert p[..j] == lines[..j];
    LoadCharacterised(lines[..j], sc);
    LoadCharacterised(p, sc);
    FatalPersists(lines, j + 1, sc);
  }

  // ---------- the loader in place ----------

  /** A mesh whose arrays grow in place; the counts are the lengths the
      source keeps beside each array. */
  class Mesh {
    var vertices: seq<V3>
    var normals: seq<V3>
    var faces: seq<Tri>
    var vertexCount: nat
    var normalCount: nat
    var faceCount: nat

    ghost predicate Valid()
      reads this
    {
      vertexCount == |vertices| && normalCount == |normals| && faceCount == |faces|
    }

    function Value(): MeshValue
      reads this
    {
      MeshValue(vertices, normals, faces)
    }

    /** A zeroed mesh. */
    constructor ()
      ensures Valid() && Value() == EmptyMesh
    {
      vertices, normals, faces := [], [], [];
      vertexCount, normalCount, faceCount := 0, 0, 0;
    }

    /** Grow the vertex array by one, count it, and write at count - 1. */
    method AppendVertex(v: V3)
      requires Valid()
      modifies this
      ensures Valid() && Value() == AddVertex(old(Value()), v)
      ensures vertexCount == old(vertexCount) + 1 && vertices[old(vertexCount)] == v
    {
      vertices := vertices + [Zero3];
      vertexCount := vertexCount + 1;
      vertices := vertices[vertexCount - 1 := v];
    }

    /** Grow the normal array by one, count it, and write at count - 1. */
    method AppendNormal(n: V3)
      requires Valid()
      modifies this
      ensures Valid() && Value() == AddNormal(old(Value()), n)
      ensures normalCount == old(normalCount) + 1 && normals[old(normalCount)] == n
    {
      normals := normals + [Zero3];
      normalCount := normalCount + 1;
      normals := normals[normalCount - 1 := n];
    }

    /** Grow the face array by one, count it, and write at count - 1. */
    method AppendFace(t: Tri)
      requires Valid()
      modifies this
      ensures Valid() && Value() == AddFace(old(Value()), t)
      ensures faceCount == old(faceCount) + 1 && faces[old(faceCount)] == t
    {
      faces := faces + [Tri(0, 0, 0, 0)];
      faceCount := faceCount + 1;
      faces := faces[faceCount - 1 := t];
    }
  }

  /** The values the mesh objects hold, in order. */
  function Values(ms: seq<Mesh>): seq<MeshValue>
    reads ms
  {
    seq(|ms|, j reads ms requires 0 <= j < |ms| => ms[j].Value())
  }

  /** What `loadMeshFromOBJ` hands back: nothing when the file does not
      open, the error where the source raises SIGTERM, or the meshes with
      the count it stores through `meshCount`. */
  datatype LoadResult =
    | OpenFailed
    | Aborted(error: LoadError)
    | Loaded(meshes: seq<Mesh>, meshCount: int)

  /** Meshes held at most once each. */
  predicate Distinct(ms: seq<Mesh>)
  {
    forall a, b :: 0 <= a < b < |ms| ==> ms[a] != ms[b]
  }

  /** The body of the loader's `while` loop after the line count has been
      advanced to `lineNumb`: the `switch` on the first character, applied
      in place to the meshes, with the error where the source raises SIGTERM. */
  method DispatchLine(meshArr: seq<Mesh>, currentMeshIndex: int, lineNumb: nat, line: string, sc: Scanners)
    returns (meshes: seq<Mesh>, current: int, error: Option<LoadError>)
    requires lineNumb >= 1 && currentMeshIndex == |meshArr| - 1
    requires Distinct(meshArr) && forall m :: m in meshArr ==> m.Valid()
    modifies set m | m in meshArr
    ensures Step(ParserState(old(Values(meshArr)), currentMeshIndex, lineNumb - 1), line, sc) ==
            if error.Some? then Fatal(error.value) else Parsed(ParserState(Values(meshes), current, lineNumb))
    ensures error.Some? ==> meshes == meshArr && forall m :: m in meshArr ==> m.Value() == old(m.Value())
    ensures Distinct(meshes) && forall m :: m in meshes ==> m.Valid() && (m in meshArr || fresh(m))
  {
    meshes, current, error := meshArr, currentMeshIndex, None;
    match CharAt(line, 0) {
      case 'f' =>
        if currentMeshIndex == -1 {
          return meshes, current, Some(GeometryBeforeObject(lineNumb));
        }
        var s := sc.face(line);
        var newFace := ToBase0(s);
        if s.count != 4 {
          return meshes, current, Some(FieldCount(lineNumb, s.count, 4));
        }
        var target := meshArr[currentMeshIndex];
        assert target in meshArr;
        target.AppendFace(newFace);
      case 'o' =>
        current := currentMeshIndex + 1;
        var m := new Mesh();
        meshes := meshArr + [m];
      case 'v' =>
        if currentMeshIndex == -1 {
          return meshes, current, Some(GeometryBeforeObject(lineNumb));
        }
        match CharAt(line, 1) {
          case ' ' =>
            var s := sc.vertex(line);
            if s.count != 3 {
              return meshes, current, Some(FieldCount(lineNumb, s.count, 3));
            }
            var target := meshArr[currentMeshIndex];
            assert target in meshArr;
            target.AppendVertex(s.value);
          case 'n' =>
            var s := sc.normal(line);
            if s.count != 3 {
              return meshes, current, Some(FieldCount(lineNumb, s.count, 3));
            }
            var target := meshArr[currentMeshIndex];
            assert target in meshArr;
            target.AppendNormal(s.value);
          case _ =>
        }
      case _ =>
    }
  }

  /** `loadMeshFromOBJ` over the lines of the file (`None` when it does not open). */
  method LoadMeshFromObj(file: Option<seq<string>>, sc: Scanners) returns (r: LoadResult)
    ensures file.None? ==> r == OpenFailed
    ensures file.Some? && Load(file.value, sc).Fatal? ==> r == Aborted(Load(file.value, sc).error)
    ensures file.Some? && Load(file.value, sc).Parsed? ==>
              r.Loaded? && r.meshCount == |r.meshes| &&
              Values(r.meshes) == Load(file.value, sc).state.meshes &&
              (forall m :: m in r.meshes ==> fresh(m) && m.Valid()) && Distinct(r.meshes)
  {
    if file.None? {
      return OpenFailed;
    }
    var lines := file.value;
    var meshArr: seq<Mesh> := [];
    var currentMeshIndex := -1;
    var lineNumb: nat := 0;
    var i := 0;
    while i < |lines|
      invariant 0 <= i <= |lines| && lineNumb == i
      invariant currentMeshIndex == |meshArr| - 1
      invariant Distinct(meshArr) && forall m :: m in meshArr ==> fresh(m) && m.Valid()
      invariant Load(lines[..i], sc) == Parsed(ParserState(Values(meshArr), currentMeshIndex, lineNumb))
    {
      assert lines[..i + 1][..i] == lines[..i];
      lineNumb := lineNumb + 1;
      var error;
      meshArr, currentMeshIndex, error := DispatchLine(meshArr, currentMeshIndex, lineNumb, lines[i], sc);
      if error.Some? {
        FatalPersists(lines, i + 1, sc);
        return Aborted(error.value);
      }
      i := i + 1;
    }
    assert lines[..i] == lines;
    return Loaded(meshArr, currentMeshIndex + 1);
  }
}
