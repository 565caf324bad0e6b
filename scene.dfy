/** The scene: spheres, lights, meshes, spotlights and a camera, and the
    nearest-hit query over spheres and mesh triangles. */
module Scenes {
  import opened MathLib
  import opened Vec3
  import opened Rays
  import Materials
  import TB = TextureBuild
  import Spheres
  import Triangles
  import Models
  import Lights
  import Spotlights
  import CameraClasses

  /** What a hit reports: the distance, the point, the surface normal there
      and the surface's material. */
  datatype Record = Record(t: real, point: Vector3, normal: Vector3, material: Materials.Material)

  /** The contents of a scene as a value. A model is kept as the pools it
      had when it was added (the source copies the model into its vector). */
  datatype World = World(spheres: seq<Spheres.Sphere>, lights: seq<Lights.Light>,
                         models: seq<Models.Mesh>, spotlights: seq<Spotlights.Spotlight>)

  /** The distance triangles must exceed, so that a ray leaving a surface
      does not hit that surface again. */
  const TriangleMinimum: real := 0.001

  /** The record a sphere offers: the distance `intersect` finds, the point
      at that distance and the outward normal there. */
  function SphereCandidate(m: Libm, s: Spheres.Sphere, ray: Ray): (c: Option<Record>)
    ensures c.Some? <==> Spheres.Hit(m, s, ray).Some?
    ensures c.Some? ==> c.value.t > 0.0 && c.value.point == PointAt(ray, c.value.t)
                        && c.value.material == s.material
  {
    match Spheres.Hit(m, s, ray)
    case None => None
    case Some(t) =>
      var point := PointAt(ray, t);
      Some(Record(t, point, Spheres.Normal(m, s, point), s.material))
  }

  /** The record a triangle offers: accepted by `intersect` with
      `tMin = 0.001` and `tMax` the largest float, the normal interpolated at
      the hit's barycentric coordinates. */
  function TriangleCandidate(tri: Triangles.Triangle, ray: Ray): (c: Option<Record>)
    ensures c.Some? ==> TriangleMinimum <= c.value.t <= FloatMax
                        && c.value.point == PointAt(ray, c.value.t) && c.value.material == tri.material
  {
    match Triangles.Solve(tri, ray)
    case None => None
    case Some(s) =>
      if Triangles.InTriangle(s) && TriangleMinimum <= s.t <= FloatMax then
        Some(Record(s.t, PointAt(ray, s.t), Triangles.CalculateNormal(tri, s.u, s.v), tri.material))
      else None
  }

  function SphereCandidates(m: Libm, spheres: seq<Spheres.Sphere>, ray: Ray): (cs: seq<Option<Record>>)
    ensures |cs| == |spheres|
    ensures forall i :: 0 <= i < |spheres| ==> cs[i] == SphereCandidate(m, spheres[i], ray)
  {
    if |spheres| == 0 then []
    else SphereCandidates(m, spheres[..|spheres| - 1], ray) + [SphereCandidate(m, spheres[|spheres| - 1], ray)]
  }

  function TriangleCandidates(triangles: seq<Triangles.Triangle>, ray: Ray): (cs: seq<Option<Record>>)
    ensures |cs| == |triangles|
    ensures forall i :: 0 <= i < |triangles| ==> cs[i] == TriangleCandidate(triangles[i], ray)
  {
    if |triangles| == 0 then []
    else TriangleCandidates(triangles[..|triangles| - 1], ray) + [TriangleCandidate(triangles[|triangles| - 1], ray)]
  }

  /** The triangles of every model, model by model. */
  function ModelCandidates(models: seq<Models.Mesh>, ray: Ray): seq<Option<Record>> {
    if |models| == 0 then []
    else ModelCandidates(models[..|models| - 1], ray) + TriangleCandidates(models[|models| - 1].triangles, ray)
  }

  /** Every candidate in the order `intersect` visits them: spheres first,
      then the triangles of each model in turn. */
  function Candidates(m: Libm, w: World, ray: Ray): seq<Option<Record>> {
    SphereCandidates(m, w.spheres, ray) + ModelCandidates(w.models, ray)
  }

  /** One step of the scan: a candidate replaces the best so far only when
      it is strictly nearer. */
  function Pick(best: Record, c: Option<Record>): (r: Record)
    ensures r.t <= best.t
    ensures c.Some? && c.value.t < best.t ==> r == c.value
    ensures !(c.Some? && c.value.t < best.t) ==> r == best
  {
    if c.Some? && c.value.t < best.t then c.value else best
  }

  /** The scan over `cs` from the record the caller passes in. */
  function Scan(init: Record, cs: seq<Option<Record>>): Record {
    if |cs| == 0 then init else Pick(Scan(init, cs[..|cs| - 1]), cs[|cs| - 1])
  }

  /** `c` is nearer than `init`. */
  predicate Qualifies(init: Record, c: Option<Record>) {
    c.Some? && c.value.t < init.t
  }

  /** The index of the candidate the scan ends on, or -1 when it keeps the
      incoming record. */
  function Winner(init: Record, cs: seq<Option<Record>>): (w: int)
    ensures -1 <= w < |cs|
    ensures w >= 0 ==> cs[w].Some?
  {
    if |cs| == 0 then -1
    else
      var p := Winner(init, cs[..|cs| - 1]);
      if Qualifies(if p < 0 then init else cs[p].value, cs[|cs| - 1]) then |cs| - 1 else p
  }

  /** What the scan returns, in full: the incoming record when no candidate
      beats it, otherwise the candidate at `Winner`, which is strictly nearer
      than the incoming record and than every candidate before it, and no
      farther than any candidate after it. So the result is the minimum, and
      on ties the first candidate in visiting order wins. */
  lemma {:induction false} ScanPicksWinner(init: Record, cs: seq<Option<Record>>)
    ensures var w := Winner(init, cs);
      && Scan(init, cs) == (if w < 0 then init else cs[w].value)
      && (w >= 0 ==> cs[w].value.t < init.t)
      && (forall j :: 0 <= j < w && cs[j].Some? ==> cs[j].value.t > Scan(init, cs).t)
      && (forall j :: w < j < |cs| && cs[j].Some? ==> cs[j].value.t >= Scan(init, cs).t)
  {
    if |cs| > 0 {
      var n := |cs| - 1;
      var prefix := cs[..n];
      ScanPicksWinner(init, prefix);
      assert forall i :: 0 <= i < n ==> prefix[i] == cs[i];
    }
  }

  /** Scanning never moves the distance up. */
  lemma ScanNoFarther(init: Record, cs: seq<Option<Record>>)
    ensures Scan(init, cs).t <= init.t
  {
    ScanPicksWinner(init, cs);
  }

  /** With no candidate nearer than the incoming record, the scan returns
      it unchanged: `t`, `point`, `normal` and `material` are left alone. */
  lemma {:induction false} ScanWithoutQualifier(init: Record, cs: seq<Option<Record>>)
    requires forall i :: 0 <= i < |cs| ==> !Qualifies(init, cs[i])
    ensures Scan(init, cs) == init
  {
    if |cs| > 0 {
      var prefix := cs[..|cs| - 1];
      assert forall i :: 0 <= i < |prefix| ==> prefix[i] == cs[i];
      ScanWithoutQualifier(init, prefix);
    }
  }

  /** Scanning a concatenation is scanning the second part from the result
      of the first: the triangle loop continues where the sphere loop left
      off. */
  lemma {:induction false} ScanAppend(init: Record, a: seq<Option<Record>>, b: seq<Option<Record>>)
    ensures Scan(init, a + b) == Scan(Scan(init, a), b)
  {
    if |b| == 0 {
      assert a + b == a;
    } else {
      var b' := b[..|b| - 1];
      assert (a + b)[..|a + b| - 1] == a + b';
      ScanAppend(init, a, b');
    }
  }

  /** The record `ray_trace` starts each query from: `t` at the largest
      float, default-constructed point, normal and material. */
  const Unhit := Record(FloatMax, Zero, Zero, Materials.NewMaterial())

  /** The nearest hit along `ray`, as `intersect` leaves its out-parameters
      when called from `Unhit`. */
  function Nearest(m: Libm, w: World, ray: Ray): Record {
    Scan(Unhit, Candidates(m, w, ray))
  }

  /** `intersect` called from `Unhit` answers true. */
  predicate Hits(m: Libm, w: World, ray: Ray) {
    Nearest(m, w, ray).t < FloatMax
  }

  /** A material whose texture, if any, is one `load` can produce. */
  predicate MaterialOk(mat: Materials.Material) {
    mat.texture.Some? ==> TB.WellFormed(mat.texture.value)
  }

  /** Every material of every sphere and triangle is `MaterialOk`. */
  predicate WellFormedWorld(w: World) {
    && (forall s :: s in w.spheres ==> MaterialOk(s.material))
    && (forall mesh, tri :: mesh in w.models && tri in mesh.triangles ==> MaterialOk(tri.material))
  }

  predicate CandidatesOk(cs: seq<Option<Record>>) {
    forall i :: 0 <= i < |cs| && cs[i].Some? ==> MaterialOk(cs[i].value.material)
  }

  lemma {:induction false} ModelCandidatesOk(models: seq<Models.Mesh>, ray: Ray)
    requires forall mesh, tri :: mesh in models && tri in mesh.triangles ==> MaterialOk(tri.material)
    ensures CandidatesOk(ModelCandidates(models, ray))
  {
    if |models| > 0 {
      var prefix := models[..|models| - 1];
      assert forall mesh :: mesh in prefix ==> mesh in models;
      ModelCandidatesOk(prefix, ray);
      var last := models[|models| - 1].triangles;
      assert forall i :: 0 <= i < |last| ==> last[i] in last;
    }
  }

  /** The scan's result carries the incoming material or a candidate's. */
  lemma ScanKeepsMaterialsOk(init: Record, cs: seq<Option<Record>>)
    requires MaterialOk(init.material) && CandidatesOk(cs)
    ensures MaterialOk(Scan(init, cs).material)
  {
    ScanPicksWinner(init, cs);
  }

  /** In a well-formed world, the material of the nearest hit is
      `MaterialOk`: it belongs to a sphere, a triangle, or is the default. */
  lemma NearestMaterialOk(m: Libm, w: World, ray: Ray)
    requires WellFormedWorld(w)
    ensures MaterialOk(Nearest(m, w, ray).material)
  {
    var spheres := SphereCandidates(m, w.spheres, ray);
    assert forall i :: 0 <= i < |w.spheres| ==> w.spheres[i] in w.spheres;
    ModelCandidatesOk(w.models, ray);
    var models := ModelCandidates(w.models, ray);
    assert forall i :: 0 <= i < |spheres + models| ==>
      (spheres + models)[i] == if i < |spheres| then spheres[i] else models[i - |spheres|];
    ScanKeepsMaterialsOk(Unhit, Candidates(m, w, ray));
  }

  /** A scene object. `spotlights` is the collection the shader reads
      alongside `lights`. */
  class Scene {
    var spheres: seq<Spheres.Sphere>
    var lights: seq<Lights.Light>
    var models: seq<Models.Mesh>
    var spotlights: seq<Spotlights.Spotlight>
    var camera: CameraClasses.Camera

    function Contents(): World
      reads this
    {
      World(spheres, lights, models, spotlights)
    }

    /** An empty scene with the default camera. */
    constructor ()
      ensures Contents() == World([], [], [], [])
      ensures camera == CameraClasses.Default
    {
      spheres, lights, models, spotlights := [], [], [], [];
      camera := CameraClasses.Default;
    }

    /** `add(sphere)`. */
    method AddSphere(sphere: Spheres.Sphere)
      modifies this
      ensures Contents() == old(Contents()).(spheres := old(spheres) + [sphere])
      ensures camera == old(camera)
    {
      spheres := spheres + [sphere];
    }

    /** `add(light)`. */
    method AddLight(light: Lights.Light)
      modifies this
      ensures Contents() == old(Contents()).(lights := old(lights) + [light])
      ensures camera == old(camera)
    {
      lights := lights + [light];
    }

    /** `add(model)`: the model's pools as they are now. */
    method AddModel(model: Models.Model)
      modifies this
      ensures Contents() == old(Contents()).(models := old(models) + [model.Pools()])
      ensures camera == old(camera)
    {
      models := models + [model.Pools()];
    }

    /** `setCamera(cam)`. */
    method SetCamera(cam: CameraClasses.Camera)
      modifies this
      ensures camera == cam && Contents() == old(Contents())
    {
      camera := cam;
    }

    /** `intersect(ray, t, point, normal, material)`: every sphere, then
        every triangle of every model, keeping a hit only when it is strictly
        nearer than the best so far. The result says whether the final
        distance is below the largest float. */
    method Intersect(m: Libm, ray: Ray, init: Record) returns (hit: bool, best: Record)
      ensures best == Scan(init, Candidates(m, Contents(), ray))
      ensures hit <==> best.t < FloatMax
    {
      best := init;
      var i := 0;
      while i < |spheres|
        invariant 0 <= i <= |spheres|
        invariant best == Scan(init, SphereCandidates(m, spheres[..i], ray))
      {
        var sphere := spheres[i];
        best := TestSphere(m, ray, sphere, best);
        SphereStep(m, spheres, i, ray);
        ScanStep(init, SphereCandidates(m, spheres[..i], ray), SphereCandidate(m, sphere, ray));
        i := i + 1;
      }
      assert spheres[..i] == spheres;
      best := ScanModels(ray, models, best);
      ScanAppend(init, SphereCandidates(m, spheres, ray), ModelCandidates(models, ray));
      hit := best.t < FloatMax;
    }

    /** The body of the sphere loop: a hit nearer than `best` replaces it. */
    static method TestSphere(m: Libm, ray: Ray, sphere: Spheres.Sphere, best: Record) returns (next: Record)
      ensures next == Pick(best, SphereCandidate(m, sphere, ray))
    {
      next := best;
      var sphereHit, tSphere := Spheres.Intersect(m, sphere, ray, 0.0);
      if sphereHit && tSphere < best.t {
        var point := PointAt(ray, tSphere);
        next := Record(tSphere, point, Spheres.Normal(m, sphere, point), sphere.material);
      }
    }

    /** The body of the triangle loop: a hit nearer than `best` replaces it. */
    static method TestTriangle(ray: Ray, triangle: Triangles.Triangle, best: Record) returns (next: Record)
      ensures next == Pick(best, TriangleCandidate(triangle, ray))
    {
      next := best;
      var triangleHit, tTriangle, u, v := Triangles.Intersect(triangle, ray, TriangleMinimum, FloatMax, 0.0, 0.0, 0.0);
      if triangleHit && tTriangle < best.t {
        next := Record(tTriangle, PointAt(ray, tTriangle), Triangles.CalculateNormal(triangle, u, v), triangle.material);
      }
    }

    /** The outer loop over the models. */
    static method ScanModels(ray: Ray, models: seq<Models.Mesh>, from: Record) returns (best: Record)
      ensures best == Scan(from, ModelCandidates(models, ray))
    {
      best := from;
      var k := 0;
      while k < |models|
        invariant 0 <= k <= |models|
        invariant best == Scan(from, ModelCandidates(models[..k], ray))
      {
        ModelStep(models, k, ray);
        ScanAppend(from, ModelCandidates(models[..k], ray), TriangleCandidates(models[k].triangles, ray));
        best := ScanModel(ray, models[k].triangles, best);
        k := k + 1;
      }
      assert models[..k] == models;
    }

    /** The inner loop over the triangles of one model. */
    static method ScanModel(ray: Ray, triangles: seq<Triangles.Triangle>, from: Record) returns (best: Record)
      ensures best == Scan(from, TriangleCandidates(triangles, ray))
    {
      best := from;
      var j := 0;
      while j < |triangles|
        invariant 0 <= j <= |triangles|
        invariant best == Scan(from, TriangleCandidates(triangles[..j], ray))
      {
        var triangle := triangles[j];
        best := TestTriangle(ray, triangle, best);
        TriangleStep(triangles, j, ray);
        ScanStep(from, TriangleCandidates(triangles[..j], ray), TriangleCandidate(triangle, ray));
        j := j + 1;
      }
      assert triangles[..j] == triangles;
    }
  }

  lemma ScanStep(init: Record, cs: seq<Option<Record>>, c: Option<Record>)
    ensures Scan(init, cs + [c]) == Pick(Scan(init, cs), c)
  {
    assert (cs + [c])[..|cs|] == cs;
  }

  lemma SphereStep(m: Libm, spheres: seq<Spheres.Sphere>, i: nat, ray: Ray)
    requires i < |spheres|
    ensures SphereCandidates(m, spheres[..i + 1], ray)
         == SphereCandidates(m, spheres[..i], ray) + [SphereCandidate(m, spheres[i], ray)]
  {
    assert spheres[..i + 1][..i] == spheres[..i];
  }

  lemma TriangleStep(triangles: seq<Triangles.Triangle>, j: nat, ray: Ray)
    requires j < |triangles|
    ensures TriangleCandidates(triangles[..j + 1], ray)
         == TriangleCandidates(triangles[..j], ray) + [TriangleCandidate(triangles[j], ray)]
  {
    assert triangles[..j + 1][..j] == triangles[..j];
  }

  lemma ModelStep(models: seq<Models.Mesh>, k: nat, ray: Ray)
    requires k < |models|
    ensures ModelCandidates(models[..k + 1], ray)
         == ModelCandidates(models[..k], ray) + TriangleCandidates(models[k].triangles, ray)
  {
    assert models[..k + 1][..k] == models[..k];
  }
}
