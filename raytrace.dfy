/** `ray_trace`: the recursive Whitted shader. A ray deeper than the
    camera's bounce limit, or one that hits nothing, is black. Otherwise
    the colour at the nearest hit is built in stages: the ambient term, one
    Phong term per unshadowed light, three successive blends with the
    reflected and refracted colours, one term per unshadowed spotlight in
    its cone, and finally the texture.

    Three things the shader calls are not defined by the scene and material
    classes it uses; they are parameters here, gathered in `Env`. */
module RayTrace {
  import opened MathLib
  import opened Vec3
  import opened Rays
  import Vec2
  import Materials
  import TC = TextureClasses
  import TB = TextureBuild
  import Lights
  import Spotlights
  import Scenes
  import CameraClasses

  /** Four jitter draws, one per sample of `sampleSuper(texCoords, 4)`. */
  type Draws = s: seq<(real, real)> | |s| == 4
    witness [(0.0, 0.0), (0.0, 0.0), (0.0, 0.0), (0.0, 0.0)]

  /** `scene.computeLighting(point, normal, view, exponent)` and
      `material.bumpNormal(point, normal)`, which the scene and material
      classes do not define, and the random draws `sampleSuper` takes at a
      hit point and depth. */
  datatype Env = Env(
    computeLighting: (Vector3, Vector3, Vector3, real) -> Vector3,
    bumpNormal: (Materials.Material, Vector3, Vector3) -> Vector3,
    jitter: (Vector3, int) -> Draws)

  /** How far secondary rays start from the surface along their direction. */
  const Offset: real := 0.001

  /** A ray leaving `point` in direction `dir`, started `0.001 * dir` away. */
  function Leaving(m: Libm, point: Vector3, dir: Vector3): (r: Ray)
    ensures r.origin == Add(point, Scale(dir, Offset))
  {
    MakeRay(m, Add(point, Scale(dir, Offset)), dir)
  }

  /** `1 / (1 + ka * distance)`: in `(0, 1]` whenever `ka * distance` is
      not negative, and 1 exactly when it is 0. */
  function Attenuation(ka: real, distance: real): (a: real)
    ensures ka * distance >= 0.0 ==> 0.0 < a <= 1.0
    ensures ka * distance == 0.0 ==> a == 1.0
  {
    Quot(1.0, 1.0 + ka * distance)
  }

  /** The shadow test: the ray towards `lightPosition`, leaving `point`,
      hits something, at any distance (even beyond the light). */
  predicate Shadowed(m: Libm, w: Scenes.World, point: Vector3, lightPosition: Vector3) {
    var dir := Normalized(m, Sub(lightPosition, point));
    Scenes.Hits(m, w, Leaving(m, point, dir))
  }

  /** The Phong term of one light before attenuation:
      `kd * color * max(0, N.L) + ks * I * max(0, R.V)^exponent`. */
  function Phong(m: Libm, env: Env, cam: CameraClasses.Camera, hit: Scenes.Record, light: Lights.Light): Vector3 {
    var mat := hit.material;
    var diffuse := Scale(Scale(mat.color, mat.kd), DiffuseFactor(m, env, hit, light));
    var specular := Scale(ScaleLeft(mat.ks, light.intensity), SpecFactor(m, env, cam, hit, light));
    Add(diffuse, specular)
  }

  /** `max(0, N.L)` with `N` the bumped normal and `L` the direction to the
      light. */
  function DiffuseFactor(m: Libm, env: Env, hit: Scenes.Record, light: Lights.Light): real {
    var lightDir := Normalized(m, Sub(light.position, hit.point));
    Max(0.0, Dot(env.bumpNormal(hit.material, hit.point, hit.normal), lightDir))
  }

  /** `max(0, R.V)^exponent`, with `R` the light direction mirrored about
      the bumped normal and `V` the direction to the camera. */
  function SpecFactor(m: Libm, env: Env, cam: CameraClasses.Camera, hit: Scenes.Record, light: Lights.Light): real {
    var lightDir := Normalized(m, Sub(light.position, hit.point));
    var reflectDir := Reflect(Neg(lightDir), env.bumpNormal(hit.material, hit.point, hit.normal));
    var viewDir := Normalized(m, Sub(cam.position, hit.point));
    m.pow(Max(0.0, Dot(reflectDir, viewDir)), hit.material.exponent)
  }

  /** The attenuation of a light at `position` seen from the hit. */
  function DistanceAttenuation(m: Libm, hit: Scenes.Record, position: Vector3): real {
    Attenuation(hit.material.ka, Length(m, Sub(position, hit.point)))
  }

  /** What one light adds at the hit: nothing when its shadow ray hits
      anything; otherwise the Phong term times the intensity, attenuated by
      the distance to the light. The light's kind is never consulted. */
  function LightTerm(m: Libm, env: Env, w: Scenes.World, cam: CameraClasses.Camera,
                     hit: Scenes.Record, light: Lights.Light): (r: Vector3)
    ensures Shadowed(m, w, hit.point, light.position) ==> r == Zero
  {
    if Shadowed(m, w, hit.point, light.position) then Zero
    else Scale(Mul(Phong(m, env, cam, hit, light), light.intensity), DistanceAttenuation(m, hit, light.position))
  }

  /** The colour after the light loop, from `start`: each light's term added
      in order. */
  function Lit(m: Libm, env: Env, w: Scenes.World, cam: CameraClasses.Camera,
               hit: Scenes.Record, start: Vector3, lights: seq<Lights.Light>): Vector3
  {
    if |lights| == 0 then start
    else Add(Lit(m, env, w, cam, hit, start, lights[..|lights| - 1]),
             LightTerm(m, env, w, cam, hit, lights[|lights| - 1]))
  }

  /** Extending the lights by one adds that light's term. */
  lemma LitStep(m: Libm, env: Env, w: Scenes.World, cam: CameraClasses.Camera,
                hit: Scenes.Record, start: Vector3, lights: seq<Lights.Light>, i: int)
    requires 0 <= i < |lights|
    ensures Lit(m, env, w, cam, hit, start, lights[..i + 1])
         == Add(Lit(m, env, w, cam, hit, start, lights[..i]), LightTerm(m, env, w, cam, hit, lights[i]))
  {
    assert lights[..i + 1][..i] == lights[..i];
  }

  /** Extending the spotlights by one adds that spotlight's term. */
  lemma SpotLitStep(m: Libm, env: Env, w: Scenes.World, cam: CameraClasses.Camera,
                    hit: Scenes.Record, start: Vector3, spots: seq<Spotlights.Spotlight>, i: int)
    requires 0 <= i < |spots|
    ensures SpotLit(m, env, w, cam, hit, start, spots[..i + 1])
         == Add(SpotLit(m, env, w, cam, hit, start, spots[..i]), SpotTerm(m, env, w, cam, hit, spots[i]))
  {
    assert spots[..i + 1][..i] == spots[..i];
  }

  /** The three blend assignments in order: with the reflected colour by
      `r`, then with the refracted colour by `tr`, then once more with both.
      Each starts from the previous one's result. */
  function Blends(local: Vector3, reflected: Vector3, refracted: Vector3, r: real, tr: real): (c: Vector3)
    ensures r == 0.0 && tr == 0.0 ==> c == local
  {
    var c1 := Add(Scale(local, 1.0 - r), Scale(reflected, r));
    var c2 := Add(Scale(c1, 1.0 - tr), Scale(refracted, tr));
    Add(Add(Scale(c2, 1.0 - r - tr), Scale(reflected, r)), Scale(refracted, tr))
  }

  /** The spotlight's cone test: the angle `acos(L . axis)` between the
      direction to the light and the normalised axis. */
  function SpotAngle(m: Libm, s: Spotlights.Spotlight, point: Vector3): real {
    var lightDir := Normalized(m, Sub(s.position, point));
    m.acos(Dot(lightDir, Normalized(m, s.direction)))
  }

  /** `clamp(1 - angle / coneAngle, 0, 1) ^ falloffExponent`. */
  function Falloff(m: Libm, s: Spotlights.Spotlight, angle: real): real {
    m.pow(Spotlights.ClampValue(1.0 - Quot(angle, s.angle), 0.0, 1.0), s.falloffExponent)
  }

  /** What one spotlight adds: nothing outside its cone or when its shadow
      ray hits anything; otherwise `computeLighting` scaled by the
      intensity, the falloff and the attenuation. */
  function SpotTerm(m: Libm, env: Env, w: Scenes.World, cam: CameraClasses.Camera,
                    hit: Scenes.Record, s: Spotlights.Spotlight): (r: Vector3)
    ensures SpotAngle(m, s, hit.point) > s.angle ==> r == Zero
    ensures Shadowed(m, w, hit.point, s.position) ==> r == Zero
  {
    var angle := SpotAngle(m, s, hit.point);
    if angle > s.angle || Shadowed(m, w, hit.point, s.position) then Zero
    else
      var viewDir := Normalized(m, Sub(cam.position, hit.point));
      var lighting := env.computeLighting(hit.point, hit.normal, viewDir, hit.material.exponent);
      var distance := Length(m, Sub(s.position, hit.point));
      Scale(Scale(Scale(lighting, s.intensity), Falloff(m, s, angle)),
            Attenuation(hit.material.ka, distance))
  }

  /** The colour after the spotlight loop, from `start`. */
  function SpotLit(m: Libm, env: Env, w: Scenes.World, cam: CameraClasses.Camera,
                   hit: Scenes.Record, start: Vector3, spots: seq<Spotlights.Spotlight>): Vector3
  {
    if |spots| == 0 then start
    else Add(SpotLit(m, env, w, cam, hit, start, spots[..|spots| - 1]),
             SpotTerm(m, env, w, cam, hit, spots[|spots| - 1]))
  }

  /** The texture stage: with a valid texture the colour is multiplied,
      channel by channel, by the mean of four jittered samples at the hit's
      texture coordinates; otherwise it is left as it is. */
  function Textured(m: Libm, env: Env, hit: Scenes.Record, depth: int, c: Vector3): (r: Vector3)
    requires Scenes.MaterialOk(hit.material)
    ensures !(hit.material.texture.Some? && TB.IsValid(hit.material.texture.value)) ==> r == c
  {
    match hit.material.texture
    case None => c
    case Some(tex) =>
      if TB.IsValid(tex) then
        var texCoords := Materials.TextureCoordinates(m, hit.point);
        Mul(c, TB.SuperSample(tex, texCoords, 4, env.jitter(hit.point, depth)))
      else c
  }

  /** Where a valid texture reads the same colour `tc` at all four
      jittered positions, the texture stage tints by exactly `tc`. */
  lemma UniformTextureTints(m: Libm, env: Env, hit: Scenes.Record, depth: int, c: Vector3, tc: Vector3)
    requires Scenes.MaterialOk(hit.material)
    requires hit.material.texture.Some? && TB.IsValid(hit.material.texture.value)
    requires var tex := hit.material.texture.value;
      forall i :: 0 <= i < 4 ==>
        TC.Sample(TB.Base(tex), TB.Jittered(tex, Materials.TextureCoordinates(m, hit.point), env.jitter(hit.point, depth)[i])) == tc
    ensures Textured(m, env, hit, depth, c) == Mul(c, tc)
  {
    var tex := hit.material.texture.value;
    TB.SuperSampleOfUniform(tex, Materials.TextureCoordinates(m, hit.point), 4, env.jitter(hit.point, depth), tc);
  }

  /** The mirror ray at a hit: `reflect(d, N)` normalised. */
  function Reflected(m: Libm, ray: Ray, hit: Scenes.Record): Ray {
    Leaving(m, hit.point, Normalized(m, Reflect(ray.direction, hit.normal)))
  }

  /** The transmitted ray at a hit: `refract(d, N, ior)` normalised (a zero
      vector under total internal reflection). */
  function Refracted(m: Libm, ray: Ray, hit: Scenes.Record): Ray {
    Leaving(m, hit.point, Normalized(m, Refract(m, ray.direction, hit.normal, hit.material.refractionIndex)))
  }

  /** The colour at a hit, given the colours the two secondary rays bring
      back. */
  function Surface(m: Libm, env: Env, w: Scenes.World, cam: CameraClasses.Camera, hit: Scenes.Record,
                   depth: int, reflected: Vector3, refracted: Vector3): Vector3
    requires Scenes.MaterialOk(hit.material)
  {
    var mat := hit.material;
    var local := Lit(m, env, w, cam, hit, Add(Zero, Scale(mat.color, mat.ka)), w.lights);
    var blended := Blends(local, reflected, refracted, mat.reflectance, mat.transmittance);
    Textured(m, env, hit, depth, SpotLit(m, env, w, cam, hit, blended, w.spotlights))
  }

  /** `ray_trace(ray, scene, camera, depth)`: black once `depth` exceeds
      `maxBounce`, otherwise the shading of the nearest hit. */
  function Shade(m: Libm, env: Env, w: Scenes.World, cam: CameraClasses.Camera, ray: Ray, depth: int): (c: Vector3)
    requires Scenes.WellFormedWorld(w)
    ensures depth > cam.maxBounce ==> c == Zero
    ensures depth <= cam.maxBounce && !Scenes.Hits(m, w, ray) ==> c == Zero
    decreases cam.maxBounce + 1 - depth, 1
  {
    if depth > cam.maxBounce then Zero else ShadeHit(m, env, w, cam, ray, depth)
  }

  /** `ray_trace` below the depth cutoff: black on a miss; on a hit, both
      secondary rays are traced, whatever the reflectance and transmittance,
      one level deeper, and the surface colour combines them. */
  function ShadeHit(m: Libm, env: Env, w: Scenes.World, cam: CameraClasses.Camera, ray: Ray, depth: int): (c: Vector3)
    requires Scenes.WellFormedWorld(w)
    requires depth <= cam.maxBounce
    ensures !Scenes.Hits(m, w, ray) ==> c == Zero
    decreases cam.maxBounce + 1 - depth, 0
  {
    var hit := Scenes.Nearest(m, w, ray);
    if hit.t < FloatMax then
      Scenes.NearestMaterialOk(m, w, ray);
      var reflected := Shade(m, env, w, cam, Reflected(m, ray, hit), depth + 1);
      var refracted := Shade(m, env, w, cam, Refracted(m, ray, hit), depth + 1);
      Surface(m, env, w, cam, hit, depth, reflected, refracted)
    else Zero
  }

  /** Hard shadows: when every light is blocked the light loop adds nothing
      to the ambient colour. */
  lemma {:induction false} AllShadowedAddsNothing(m: Libm, env: Env, w: Scenes.World, cam: CameraClasses.Camera,
                                                  hit: Scenes.Record, start: Vector3, lights: seq<Lights.Light>)
    requires forall i :: 0 <= i < |lights| ==> Shadowed(m, w, hit.point, lights[i].position)
    ensures Lit(m, env, w, cam, hit, start, lights) == start
  {
    if |lights| > 0 {
      var prefix := lights[..|lights| - 1];
      assert forall i :: 0 <= i < |prefix| ==> prefix[i] == lights[i];
      AllShadowedAddsNothing(m, env, w, cam, hit, start, prefix);
      assert Add(start, Zero) == start;
    }
  }

  /** Every light goes through the same positional path: an ambient light
      contributes exactly what a point light at the same place with the same
      intensity contributes. */
  lemma AmbientLikePoint(m: Libm, env: Env, w: Scenes.World, cam: CameraClasses.Camera,
                         hit: Scenes.Record, position: Vector3, intensity: Vector3)
    ensures LightTerm(m, env, w, cam, hit, Lights.Light(position, intensity, Lights.Ambient))
         == LightTerm(m, env, w, cam, hit, Lights.Light(position, intensity, Lights.Point))
  {
    var a := Lights.Light(position, intensity, Lights.Ambient);
    var p := Lights.Light(position, intensity, Lights.Point);
    assert Phong(m, env, cam, hit, a) == Phong(m, env, cam, hit, p);
  }

  /** The specular part is multiplied by the intensity twice: with no
      diffuse coefficient, an unshadowed light adds `ks * I * spec`
      multiplied, channel by channel, by `I` once more, then attenuated. */
  lemma SpecularQuadraticInIntensity(m: Libm, env: Env, w: Scenes.World, cam: CameraClasses.Camera,
                                     hit: Scenes.Record, light: Lights.Light)
    requires hit.material.kd == 0.0 && !Shadowed(m, w, hit.point, light.position)
    ensures LightTerm(m, env, w, cam, hit, light)
         == Scale(Mul(Scale(ScaleLeft(hit.material.ks, light.intensity), SpecFactor(m, env, cam, hit, light)),
                      light.intensity),
                  DistanceAttenuation(m, hit, light.position))
  {
    var mat := hit.material;
    var specular := Scale(ScaleLeft(mat.ks, light.intensity), SpecFactor(m, env, cam, hit, light));
    assert Phong(m, env, cam, hit, light)
        == Add(Scale(Scale(mat.color, mat.kd), DiffuseFactor(m, env, hit, light)), specular);
    SpecularOnly(mat.color, mat.kd, DiffuseFactor(m, env, hit, light), specular);
  }

  lemma SpecularOnly(color: Vector3, kd: real, diffuseFactor: real, specular: Vector3)
    requires kd == 0.0
    ensures Add(Scale(Scale(color, kd), diffuseFactor), specular) == specular
  {
    assert Scale(Scale(color, kd), diffuseFactor) == Zero;
  }

  /** A perfect mirror (`reflectance` 1, no transmittance) returns the
      reflected colour: the local colour is blended away. */
  lemma MirrorBlend(local: Vector3, reflected: Vector3, refracted: Vector3)
    ensures Blends(local, reflected, refracted, 1.0, 0.0) == reflected
  {
    var c1 := Add(Scale(local, 0.0), Scale(reflected, 1.0));
    assert c1 == reflected;
    var c2 := Add(Scale(c1, 1.0), Scale(refracted, 0.0));
    assert c2 == reflected;
  }

  /** The blends compound rather than the last one replacing the others:
      with reflectance 1/2 and no transmittance the reflected colour gets
      weight 3/4 and the local colour 1/4, not the halves a single blend
      would give. */
  lemma BlendsCompound(local: Vector3, reflected: Vector3, refracted: Vector3)
    ensures Blends(local, reflected, refracted, 0.5, 0.0)
         == Add(Scale(local, 0.25), Scale(reflected, 0.75))
  {
    var c1 := Add(Scale(local, 0.5), Scale(reflected, 0.5));
    var c2 := Add(Scale(c1, 1.0), Scale(refracted, 0.0));
    assert c2 == c1;
    assert Blends(local, reflected, refracted, 0.5, 0.0) == Add(Add(Scale(c1, 0.5), Scale(reflected, 0.5)), Scale(refracted, 0.0));
  }

  /** Spotlights are added after the blends: on an untextured perfect
      mirror the point lights vanish from the result, the spotlights do
      not. */
  lemma SpotlightsSurviveBlends(m: Libm, env: Env, w: Scenes.World, cam: CameraClasses.Camera,
                                hit: Scenes.Record, depth: int, reflected: Vector3, refracted: Vector3)
    requires hit.material.texture.None?
    requires hit.material.reflectance == 1.0 && hit.material.transmittance == 0.0
    ensures Surface(m, env, w, cam, hit, depth, reflected, refracted)
         == SpotLit(m, env, w, cam, hit, reflected, w.spotlights)
  {
    var mat := hit.material;
    var local := Lit(m, env, w, cam, hit, Add(Zero, Scale(mat.color, mat.ka)), w.lights);
    MirrorBlend(local, reflected, refracted);
  }

  /** `ray_trace`: the same computation step by step, with the light loops
      accumulating into `color`. */
  method Trace(m: Libm, env: Env, scene: Scenes.Scene, cam: CameraClasses.Camera, ray: Ray, depth: int)
    returns (color: Vector3)
    requires Scenes.WellFormedWorld(scene.Contents())
    ensures color == Shade(m, env, scene.Contents(), cam, ray, depth)
    decreases cam.maxBounce + 1 - depth
  {
    if depth > cam.maxBounce {
      return Zero;
    }
    ghost var w := scene.Contents();
    var hit, nearest := scene.Intersect(m, ray, Scenes.Unhit);
    if !hit {
      return Zero;
    }
    Scenes.NearestMaterialOk(m, w, ray);
    var mat := nearest.material;
    color := Zero;
    color := Add(color, Scale(mat.color, mat.ka));
    color := LightLoop(m, env, scene, cam, nearest, color);
    ghost var local := color;
    var reflectedRay := Reflected(m, ray, nearest);
    var reflected := Trace(m, env, scene, cam, reflectedRay, depth + 1);
    color := Add(Scale(color, 1.0 - mat.reflectance), Scale(reflected, mat.reflectance));
    var refractedRay := Refracted(m, ray, nearest);
    var refracted := Trace(m, env, scene, cam, refractedRay, depth + 1);
    color := Add(Scale(color, 1.0 - mat.transmittance), Scale(refracted, mat.transmittance));
    color := Add(Add(Scale(color, 1.0 - mat.reflectance - mat.transmittance), Scale(reflected, mat.reflectance)),
                 Scale(refracted, mat.transmittance));
    assert color == Blends(local, reflected, refracted, mat.reflectance, mat.transmittance);
    color := SpotLoop(m, env, scene, cam, nearest, color);
    color := ApplyTexture(m, env, nearest, depth, color);
    assert color == Surface(m, env, w, cam, nearest, depth, reflected, refracted);
  }

  /** The texture step: multiply by `sampleSuper(texCoords, 4)` when the
      material has a valid texture. */
  method ApplyTexture(m: Libm, env: Env, hit: Scenes.Record, depth: int, c: Vector3) returns (color: Vector3)
    requires Scenes.MaterialOk(hit.material)
    ensures color == Textured(m, env, hit, depth, c)
  {
    color := c;
    var mat := hit.material;
    if mat.texture.Some? && TB.IsValid(mat.texture.value) {
      var texCoords := Materials.TextureCoordinates(m, hit.point);
      var textureColor := TB.SuperSample(mat.texture.value, texCoords, 4, env.jitter(hit.point, depth));
      color := Mul(color, textureColor);
    }
  }

  /** The loop over `scene.lights`, skipping shadowed lights. */
  method LightLoop(m: Libm, env: Env, scene: Scenes.Scene, cam: CameraClasses.Camera,
                   hit: Scenes.Record, start: Vector3) returns (color: Vector3)
    ensures color == Lit(m, env, scene.Contents(), cam, hit, start, scene.lights)
  {
    color := start;
    var i := 0;
    while i < |scene.lights|
      invariant 0 <= i <= |scene.lights|
      invariant color == Lit(m, env, scene.Contents(), cam, hit, start, scene.lights[..i])
    {
      var light := scene.lights[i];
      ghost var before := color;
      var lightDir := Normalized(m, Sub(light.position, hit.point));
      var blocked, _ := scene.Intersect(m, Leaving(m, hit.point, lightDir), Scenes.Unhit);
      if !blocked {
        var attenuation := DistanceAttenuation(m, hit, light.position);
        color := Add(color, Scale(Mul(Phong(m, env, cam, hit, light), light.intensity), attenuation));
      } else {
        assert Add(color, Zero) == color;
      }
      assert color == Add(before, LightTerm(m, env, scene.Contents(), cam, hit, light));
      LitStep(m, env, scene.Contents(), cam, hit, start, scene.lights, i);
      i := i + 1;
    }
    assert scene.lights[..i] == scene.lights;
  }

  /** The loop over `scene.spotlights`, skipping those outside their cone or
      shadowed. */
  method SpotLoop(m: Libm, env: Env, scene: Scenes.Scene, cam: CameraClasses.Camera,
                  hit: Scenes.Record, start: Vector3) returns (color: Vector3)
    ensures color == SpotLit(m, env, scene.Contents(), cam, hit, start, scene.spotlights)
  {
    color := start;
    var i := 0;
    while i < |scene.spotlights|
      invariant 0 <= i <= |scene.spotlights|
      invariant color == SpotLit(m, env, scene.Contents(), cam, hit, start, scene.spotlights[..i])
    {
      var s := scene.spotlights[i];
      ghost var before := color;
      var angle := SpotAngle(m, s, hit.point);
      if angle > s.angle {
        assert Add(color, Zero) == color;
      } else {
        var lightDir := Normalized(m, Sub(s.position, hit.point));
        var blocked, _ := scene.Intersect(m, Leaving(m, hit.point, lightDir), Scenes.Unhit);
        if blocked {
          assert Add(color, Zero) == color;
        } else {
          var viewDir := Normalized(m, Sub(cam.position, hit.point));
          var lighting := env.computeLighting(hit.point, hit.normal, viewDir, hit.material.exponent);
          var distance := Length(m, Sub(s.position, hit.point));
          color := Add(color, Scale(Scale(Scale(lighting, s.intensity), Falloff(m, s, angle)),
                                    Attenuation(hit.material.ka, distance)));
        }
      }
      assert color == Add(before, SpotTerm(m, env, scene.Contents(), cam, hit, s));
      SpotLitStep(m, env, scene.Contents(), cam, hit, start, scene.spotlights, i);
      i := i + 1;
    }
    assert scene.spotlights[..i] == scene.spotlights;
  }
}
