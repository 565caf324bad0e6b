/** `Model`: a triangle mesh assembled from the lines of an OBJ-style file.
    `v`, `vt` and `vn` lines fill the vertex, texture-coordinate and normal
    pools; each `f` line builds one triangle from 1-based indices into the
    pools as they stand when the line is read.

    Reading the file and parsing numbers with a string stream are not part
    of this model: the constructor receives the lines already tokenised. */
module Models {
  import opened MathLib
  import Vec2
  import Vec3
  import Mat4
  import Materials
  import Triangles

  /** The four prefixes the constructor tests, and everything else. */
  datatype LineKind = VertexKind | TexCoordKind | NormalKind | FaceKind | OtherKind

  /** The dispatch on the raw text: `"v "`, then `"vt "`, then `"vn "`, then
      `"f "`, each compared with the line's first two or three characters. */
  function Classify(line: string): (k: LineKind)
    ensures k == VertexKind <==> |line| >= 2 && line[..2] == "v "
    ensures k == FaceKind <==> |line| >= 2 && line[..2] == "f "
  {
    if |line| >= 2 && line[..2] == "v " then VertexKind
    else if |line| >= 3 && line[..3] == "vt " then TexCoordKind
    else if |line| >= 3 && line[..3] == "vn " then NormalKind
    else if |line| >= 2 && line[..2] == "f " then FaceKind
    else OtherKind
  }

  /** The order of the tests does not matter: the four prefixes exclude one
      another, so each kind is decided by its own prefix alone. */
  lemma PrefixesExclusive(line: string)
    ensures Classify(line) == TexCoordKind <==> |line| >= 3 && line[..3] == "vt "
    ensures Classify(line) == NormalKind <==> |line| >= 3 && line[..3] == "vn "
  {
    if |line| >= 3 && (line[..3] == "vt " || line[..3] == "vn ") {
      assert line[..2][1] == line[..3][1] != ' ';
      assert line[..2][0] == line[..3][0] == 'v';
    }
  }

  /** A line once its numbers are read. A face carries, per corner, the
      vertex, texture-coordinate and normal indices of `a/aT/aN`. */
  datatype Line =
    | VertexLine(v: Vec3.Vector3)
    | TexCoordLine(t: Vec2.Vector2)
    | NormalLine(n: Vec3.Vector3)
    | FaceLine(a: int, aT: int, aN: int, b: int, bT: int, bN: int, c: int, cT: int, cN: int)
    | OtherLine

  /** The four pools. */
  datatype Mesh = Mesh(vertices: seq<Vec3.Vector3>, textures: seq<Vec2.Vector2>,
                       normals: seq<Vec3.Vector3>, triangles: seq<Triangles.Triangle>)

  const Empty := Mesh([], [], [], [])

  /** `i` names an element of a pool of `n` elements, counting from 1. */
  predicate IndexIn(i: int, n: int) {
    1 <= i <= n
  }

  /** What the source needs of a face line: every vertex and normal index
      names an element already in its pool, and so does every texture index
      when the material is textured (only then are they looked up). */
  predicate Accepts(mesh: Mesh, line: Line, material: Materials.Material) {
    line.FaceLine? ==>
      IndexIn(line.a, |mesh.vertices|) && IndexIn(line.b, |mesh.vertices|) && IndexIn(line.c, |mesh.vertices|)
      && IndexIn(line.aN, |mesh.normals|) && IndexIn(line.bN, |mesh.normals|) && IndexIn(line.cN, |mesh.normals|)
      && (material.texture.Some? ==>
            IndexIn(line.aT, |mesh.textures|) && IndexIn(line.bT, |mesh.textures|) && IndexIn(line.cT, |mesh.textures|))
  }

  /** The triangle a face line builds: the textured constructor, with the
      texture coordinates and the material's texture, exactly when the
      material has a texture. */
  function FaceTriangle(mesh: Mesh, line: Line, material: Materials.Material): (tri: Triangles.Triangle)
    requires line.FaceLine? && Accepts(mesh, line, material)
    ensures tri.v0 == mesh.vertices[line.a - 1] && tri.v1 == mesh.vertices[line.b - 1]
            && tri.v2 == mesh.vertices[line.c - 1]
    ensures tri.n0 == mesh.normals[line.aN - 1] && tri.n1 == mesh.normals[line.bN - 1]
            && tri.n2 == mesh.normals[line.cN - 1]
    ensures tri.material == material
    ensures tri.texture == material.texture
    ensures material.texture.Some? ==>
      tri.t0 == mesh.textures[line.aT - 1] && tri.t1 == mesh.textures[line.bT - 1]
      && tri.t2 == mesh.textures[line.cT - 1]
    ensures material.texture.None? ==> tri.t0 == tri.t1 == tri.t2 == Vec2.Zero
  {
    if material.texture.Some? then
      Triangles.MakeTexturedTriangle(
        mesh.vertices[line.a - 1], mesh.vertices[line.b - 1], mesh.vertices[line.c - 1],
        mesh.textures[line.aT - 1], mesh.textures[line.bT - 1], mesh.textures[line.cT - 1],
        mesh.normals[line.aN - 1], mesh.normals[line.bN - 1], mesh.normals[line.cN - 1],
        material, material.texture)
    else
      Triangles.MakeTriangle(
        mesh.vertices[line.a - 1], mesh.vertices[line.b - 1], mesh.vertices[line.c - 1],
        mesh.normals[line.aN - 1], mesh.normals[line.bN - 1], mesh.normals[line.cN - 1],
        material)
  }

  /** One pass of the loop body. */
  function Step(mesh: Mesh, line: Line, material: Materials.Material): Mesh
    requires Accepts(mesh, line, material)
  {
    match line
    case VertexLine(v) => mesh.(vertices := mesh.vertices + [v])
    case TexCoordLine(t) => mesh.(textures := mesh.textures + [t])
    case NormalLine(n) => mesh.(normals := mesh.normals + [n])
    case FaceLine(_, _, _, _, _, _, _, _, _) =>
      mesh.(triangles := mesh.triangles + [FaceTriangle(mesh, line, material)])
    case OtherLine => mesh
  }

  /** The lines can be assembled in order: every face refers only to what
      the lines before it put in the pools. */
  predicate Assemblable(lines: seq<Line>, material: Materials.Material)
    decreases |lines|, 0
  {
    |lines| == 0 ||
    (Assemblable(lines[..|lines| - 1], material)
     && Accepts(Assemble(lines[..|lines| - 1], material), lines[|lines| - 1], material))
  }

  /** The pools after the constructor has read `lines`. */
  function Assemble(lines: seq<Line>, material: Materials.Material): Mesh
    requires Assemblable(lines, material)
    decreases |lines|, 1
  {
    if |lines| == 0 then Empty
    else Step(Assemble(lines[..|lines| - 1], material), lines[|lines| - 1], material)
  }

  /** Each line appends exactly one element to the pool of its kind and
      leaves the other three pools as they were; other lines change nothing. */
  lemma StepAppendsOne(mesh: Mesh, line: Line, material: Materials.Material)
    requires Accepts(mesh, line, material)
    ensures var next := Step(mesh, line, material);
      && next.vertices == mesh.vertices + (if line.VertexLine? then [line.v] else [])
      && next.textures == mesh.textures + (if line.TexCoordLine? then [line.t] else [])
      && next.normals == mesh.normals + (if line.NormalLine? then [line.n] else [])
      && next.triangles == mesh.triangles
           + (if line.FaceLine? then [FaceTriangle(mesh, line, material)] else [])
  {
  }

  /** How many of `lines` are faces. */
  function CountFaces(lines: seq<Line>): nat {
    if |lines| == 0 then 0
    else CountFaces(lines[..|lines| - 1]) + (if lines[|lines| - 1].FaceLine? then 1 else 0)
  }

  /** How many of `lines` are vertices. */
  function CountVertices(lines: seq<Line>): nat {
    if |lines| == 0 then 0
    else CountVertices(lines[..|lines| - 1]) + (if lines[|lines| - 1].VertexLine? then 1 else 0)
  }

  /** The mesh has one triangle per face line and one vertex per vertex
      line, whatever else the file holds. */
  lemma {:induction false} CountsMatchLines(lines: seq<Line>, material: Materials.Material)
    requires Assemblable(lines, material)
    ensures |Assemble(lines, material).triangles| == CountFaces(lines)
    ensures |Assemble(lines, material).vertices| == CountVertices(lines)
  {
    if |lines| > 0 {
      var prefix := lines[..|lines| - 1];
      CountsMatchLines(prefix, material);
      StepAppendsOne(Assemble(prefix, material), lines[|lines| - 1], material);
    }
  }

  /** Appending lines never changes what earlier lines built: every pool of
      the assembled prefix is a prefix of the final pool. */
  lemma {:induction false} AssembleGrows(lines: seq<Line>, k: nat, material: Materials.Material)
    requires Assemblable(lines, material) && k <= |lines|
    ensures Assemblable(lines[..k], material)
    ensures var early, late := Assemble(lines[..k], material), Assemble(lines, material);
      && early.vertices <= late.vertices && early.textures <= late.textures
      && early.normals <= late.normals && early.triangles <= late.triangles
  {
    if k < |lines| {
      var prefix := lines[..|lines| - 1];
      assert lines[..k] == prefix[..k];
      AssembleGrows(prefix, k, material);
      StepAppendsOne(Assemble(prefix, material), lines[|lines| - 1], material);
    } else {
      assert lines[..k] == lines;
    }
  }

  /** A mesh read from a file. */
  class Model {
    var vertices: seq<Vec3.Vector3>
    var textures: seq<Vec2.Vector2>
    var normals: seq<Vec3.Vector3>
    var triangles: seq<Triangles.Triangle>
    var transform: Mat4.Matrix

    /** The four pools as a value. */
    function Pools(): Mesh
      reads this
    {
      Mesh(vertices, textures, normals, triangles)
    }

    /** `Model(filename, material)`: one pass over the lines, dispatching on
        each line's kind. The transform is the default `Transform`, the
        identity. */
    constructor (lines: seq<Line>, material: Materials.Material)
      requires Assemblable(lines, material)
      ensures Pools() == Assemble(lines, material)
      ensures transform == Mat4.Identity
    {
      vertices, textures, normals, triangles := [], [], [], [];
      transform := Mat4.Identity;
      new;
      var i := 0;
      while i < |lines|
        invariant 0 <= i <= |lines|
        invariant Assemblable(lines[..i], material)
        invariant Pools() == Assemble(lines[..i], material)
        invariant transform == Mat4.Identity
      {
        AssembleGrows(lines, i + 1, material);
        assert lines[..i + 1][..i] == lines[..i];
        ReadLine(lines[i], material);
        i := i + 1;
      }
      assert lines[..i] == lines;
    }

    /** The body of the constructor's loop for one line. */
    method ReadLine(line: Line, material: Materials.Material)
      requires Accepts(Pools(), line, material)
      modifies this
      ensures Pools() == Step(old(Pools()), line, material)
      ensures transform == old(transform)
    {
      match line {
        case VertexLine(v) =>
          vertices := vertices + [v];
        case TexCoordLine(t) =>
          textures := textures + [t];
        case NormalLine(n) =>
          normals := normals + [n];
        case FaceLine(a, aT, aN, b, bT, bN, c, cT, cN) =>
          if material.texture.Some? {
            triangles := triangles + [Triangles.MakeTexturedTriangle(
              vertices[a - 1], vertices[b - 1], vertices[c - 1],
              textures[aT - 1], textures[bT - 1], textures[cT - 1],
              normals[aN - 1], normals[bN - 1], normals[cN - 1],
              material, material.texture)];
          } else {
            triangles := triangles + [Triangles.MakeTriangle(
              vertices[a - 1], vertices[b - 1], vertices[c - 1],
              normals[aN - 1], normals[bN - 1], normals[cN - 1],
              material)];
          }
        case OtherLine =>
      }
    }

    /** `getTransform()`. */
    method GetTransform() returns (t: Mat4.Matrix)
      ensures t == transform
    {
      t := transform;
    }

    /** `setTransform(t)`: replaces the transform and nothing else. */
    method SetTransform(t: Mat4.Matrix)
      modifies this
      ensures transform == t
      ensures Pools() == old(Pools())
    {
      transform := t;
    }
  }

  /** `getTransform()` after `setTransform(t)` gives back `t`, and the pools
      are untouched. */
  method SetThenGet(model: Model, t: Mat4.Matrix) returns (got: Mat4.Matrix)
    modifies model
    ensures got == t && model.Pools() == old(model.Pools())
  {
    model.SetTransform(t);
    got := model.GetTransform();
  }
}
