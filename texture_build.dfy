/** The texture of `build/classes/Texture.h`: the same conversion, lookup
    and bilinear sampling as `classes/Texture.h`, plus the integer `width`
    and `height` fields and supersampling.

    The random jitter of `sampleSuper` is not drawn here: the caller passes
    the pairs of uniform draws in `[0, 1)` that the generator would have
    produced. */
module TextureBuild {
  import opened MathLib
  import opened Vec2
  import Vec3
  import TC = TextureClasses

  /** The fields of a texture object: those of the earlier version plus the
      integer dimensions that `load` copies after a successful decode. */
  datatype TextureState = TextureState(filename: string, dimensions: Vector2,
                                       data: Option<seq<Vec3.Vector3>>, width: int, height: int)

  /** The part shared with the earlier version, on which `getColor`, `lerp`
      and `sample` (whose bodies are unchanged) operate. */
  function Base(t: TextureState): TC.TextureState {
    TC.TextureState(t.filename, t.dimensions, t.data)
  }

  /** Reachable states: the shared part is well formed and, once a buffer is
      present, the integer dimensions agree with the floating ones. */
  predicate WellFormed(t: TextureState) {
    TC.WellFormed(Base(t))
    && (t.data.Some? ==> t.width as real == t.dimensions.x && t.height as real == t.dimensions.y)
  }

  /** `isValid()`: a buffer is present and both dimensions are positive. */
  predicate IsValid(t: TextureState) {
    TC.IsValid(Base(t))
  }

  /** The state after `Texture(filename)`. After a failed decode the source
      never assigns `width` and `height`; this value records 0 for them, and
      nothing reads them while the texture is not valid. */
  function Loaded(filename: string, decoded: Option<TC.Image>): (t: TextureState)
    requires decoded.Some? ==> TC.Decoded(decoded.value)
    ensures WellFormed(t)
    ensures Base(t) == TC.Loaded(filename, decoded)
    ensures IsValid(t) <==> decoded.Some?
    ensures decoded.Some? ==> t.width == decoded.value.width && t.height == decoded.value.height
  {
    TC.LoadedIsValidIff(filename, decoded);
    match decoded
    case None => TextureState(filename, Vec2.Zero, None, 0, 0)
    case Some(img) =>
      TextureState(filename, Vector2(img.width as real, img.height as real), Some(TC.Texels(img)),
                   img.width, img.height)
  }

  /** Draw `(jx, jy)` moves the coordinates by `(jx / width, jy / height)`,
      less than one texel for draws in `[0, 1)`. */
  function Jittered(t: TextureState, texCoords: Vector2, draw: (real, real)): (c: Vector2)
    ensures t.width > 0 && t.height > 0 ==>
      (c.x - texCoords.x) * t.width as real == draw.0 && (c.y - texCoords.y) * t.height as real == draw.1
  {
    Vec2.Add(texCoords, Vector2(Quot(draw.0, t.width as real), Quot(draw.1, t.height as real)))
  }

  /** The sum of one sample per draw, in draw order. */
  function JitterSum(t: TextureState, texCoords: Vector2, draws: seq<(real, real)>): Vec3.Vector3
    requires WellFormed(t)
  {
    if |draws| == 0 then Vec3.Zero
    else
      Vec3.Add(JitterSum(t, texCoords, draws[..|draws| - 1]),
               TC.Sample(Base(t), Jittered(t, texCoords, draws[|draws| - 1])))
  }

  /** `sampleSuper(texCoords, sampleCount)`: the mean of `sampleCount`
      jittered samples (0 for a count that is not positive, where the source
      divides by zero). */
  function SuperSample(t: TextureState, texCoords: Vector2, sampleCount: int, draws: seq<(real, real)>): Vec3.Vector3
    requires WellFormed(t) && sampleCount <= |draws|
  {
    Vec3.Div(JitterSum(t, texCoords, draws[..Drawn(sampleCount)]), sampleCount as real)
  }

  /** How many draws the loop consumes: `sampleCount`, or none when it is
      not positive. */
  function Drawn(sampleCount: int): nat {
    if sampleCount < 0 then 0 else sampleCount
  }

  /** `n` copies of `c` sum to `c * n`. */
  lemma {:induction false} SumOfEqualSamples(t: TextureState, texCoords: Vector2, draws: seq<(real, real)>, c: Vec3.Vector3)
    requires WellFormed(t)
    requires forall i :: 0 <= i < |draws| ==> TC.Sample(Base(t), Jittered(t, texCoords, draws[i])) == c
    ensures JitterSum(t, texCoords, draws) == Vec3.Scale(c, |draws| as real)
  {
    if |draws| > 0 {
      var prefix := draws[..|draws| - 1];
      assert forall i :: 0 <= i < |prefix| ==> prefix[i] == draws[i];
      SumOfEqualSamples(t, texCoords, prefix, c);
      assert TC.Sample(Base(t), Jittered(t, texCoords, draws[|draws| - 1])) == c;
      ScaleStep(c, |prefix| as real);
    }
  }

  /** One more draw adds one more sample to the sum. */
  lemma JitterSumStep(t: TextureState, texCoords: Vector2, draws: seq<(real, real)>, i: int)
    requires WellFormed(t) && 0 <= i < |draws|
    ensures JitterSum(t, texCoords, draws[..i + 1])
         == Vec3.Add(JitterSum(t, texCoords, draws[..i]), TC.Sample(Base(t), Jittered(t, texCoords, draws[i])))
  {
    assert draws[..i + 1][..i] == draws[..i];
  }

  /** `c * k + c == c * (k + 1)`. */
  lemma ScaleStep(c: Vec3.Vector3, k: real)
    ensures Vec3.Add(Vec3.Scale(c, k), c) == Vec3.Scale(c, k + 1.0)
  {
  }

  /** Averaging keeps a colour that every jittered sample agrees on: where
      the texture is uniform across the jitter, supersampling changes
      nothing. */
  lemma SuperSampleOfUniform(t: TextureState, texCoords: Vector2, sampleCount: int,
                             draws: seq<(real, real)>, c: Vec3.Vector3)
    requires WellFormed(t) && 0 < sampleCount <= |draws|
    requires forall i :: 0 <= i < sampleCount ==> TC.Sample(Base(t), Jittered(t, texCoords, draws[i])) == c
    ensures SuperSample(t, texCoords, sampleCount, draws) == c
  {
    var n := sampleCount as real;
    PrefixOfEqualSamples(t, texCoords, sampleCount, draws, c);
    assert Drawn(sampleCount) == sampleCount;
    assert SuperSample(t, texCoords, sampleCount, draws) == Vec3.Div(Vec3.Scale(c, n), n);
    ScaleThenDivide(c, n);
  }

  lemma PrefixOfEqualSamples(t: TextureState, texCoords: Vector2, count: nat,
                             draws: seq<(real, real)>, c: Vec3.Vector3)
    requires WellFormed(t) && count <= |draws|
    requires forall i :: 0 <= i < count ==> TC.Sample(Base(t), Jittered(t, texCoords, draws[i])) == c
    ensures JitterSum(t, texCoords, draws[..count]) == Vec3.Scale(c, count as real)
  {
    var used := draws[..count];
    assert forall i :: 0 <= i < |used| ==> used[i] == draws[i];
    SumOfEqualSamples(t, texCoords, used, c);
  }

  /** Dividing by a non-zero factor undoes scaling by it. */
  lemma ScaleThenDivide(c: Vec3.Vector3, n: real)
    requires n != 0.0
    ensures Vec3.Div(Vec3.Scale(c, n), n) == c
  {
    assert (c.x * n) / n == c.x && (c.y * n) / n == c.y && (c.z * n) / n == c.z;
  }

  /** A `Texture` object of the later version. */
  class Texture {
    var filename: string
    var dimensions: Vector2
    var data: array?<Vec3.Vector3>
    var width: int
    var height: int

    function State(): TextureState
      reads this, data
    {
      TextureState(filename, dimensions, if data == null then None else Some(data[..]), width, height)
    }

    /** `Texture(filename)`: no buffer and dimensions `(0, 0)`, then `load`.
        `width` and `height` are left unassigned by the source when the
        decode fails, so nothing is promised about them then. */
    constructor (filename: string, decoded: Option<TC.Image>)
      requires decoded.Some? ==> TC.Decoded(decoded.value)
      ensures decoded.Some? ==> State() == Loaded(filename, decoded)
      ensures Base(State()) == TC.Loaded(filename, decoded)
      ensures WellFormed(State())
      ensures IsValid(State()) <==> decoded.Some?
    {
      this.filename := filename;
      dimensions := Vec2.Zero;
      data := null;
      new;
      Load(decoded);
      TC.LoadedIsValidIff(filename, decoded);
    }

    /** `load()`: after a failed decode nothing changes, `width` and
        `height` included; a successful one fills a fresh buffer and then sets
        the dimensions. */
    method Load(decoded: Option<TC.Image>)
      requires decoded.Some? ==> TC.Decoded(decoded.value)
      modifies this
      ensures filename == old(filename)
      ensures decoded.None? ==> dimensions == old(dimensions) && data == old(data)
                                && width == old(width) && height == old(height)
      ensures decoded.Some? ==> fresh(data) && State() == Loaded(filename, decoded)
    {
      if decoded.None? {
        return;
      }
      var img := decoded.value;
      dimensions := Vector2(img.width as real, img.height as real);
      data := TC.FillTexels(img);
      this.width := img.width;
      this.height := img.height;
    }

    /** `sampleSuper(texCoords, sampleCount)`: one jittered sample per draw,
        summed, then divided by the count. */
    method SampleSuper(texCoords: Vector2, sampleCount: int, draws: seq<(real, real)>) returns (c: Vec3.Vector3)
      requires WellFormed(State()) && sampleCount <= |draws|
      ensures c == SuperSample(State(), texCoords, sampleCount, draws)
    {
      ghost var st := State();
      var sum := Vec3.Vector3(0.0, 0.0, 0.0);
      var i := 0;
      while i < sampleCount
        invariant 0 <= i <= Drawn(sampleCount)
        invariant sum == JitterSum(st, texCoords, draws[..i])
      {
        var jitter := Vector2(Quot(draws[i].0, width as real), Quot(draws[i].1, height as real));
        var sampleCoords := Vec2.Add(texCoords, jitter);
        assert sampleCoords == Jittered(st, texCoords, draws[i]);
        JitterSumStep(st, texCoords, draws, i);
        sum := Vec3.Add(sum, TC.Sample(Base(State()), sampleCoords));
        i := i + 1;
      }
      assert i == Drawn(sampleCount);
      c := Vec3.Div(sum, sampleCount as real);
    }
  }
}
