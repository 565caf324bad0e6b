/** The texture of `classes/Texture.h`: an image converted to a row-major
    grid of RGB texels in `[0, 1]`, black outside the grid, sampled
    bilinearly.

    Decoding the image file is not modelled: `load` receives what the
    decoder returns, either nothing (the file could not be read) or the
    decoded bytes. */
module TextureClasses {
  import opened MathLib
  import opened Vec2
  import Vec3

  type Byte = b: int | 0 <= b < 256

  /** A decoded image: `width * height` pixels of `channels` bytes each,
      row after row. */
  datatype Image = Image(width: int, height: int, channels: int, bytes: seq<Byte>)

  /** What a successful decode guarantees the conversion loop: positive
      dimensions, at least the three colour channels the loop reads, and a
      buffer of exactly `width * height * channels` bytes. */
  predicate Decoded(img: Image) {
    img.width > 0 && img.height > 0 && img.channels >= 3
    && |img.bytes| == img.width * img.height * img.channels
  }

  /** `y * w + x` addresses a cell of a `w` by `h` grid exactly when
      `(x, y)` lies inside it. */
  lemma RowMajorInBounds(x: int, y: int, w: int, h: int)
    requires 0 <= x < w && 0 <= y < h
    ensures 0 <= y * w + x < w * h
  {
    MulMonotone(y, h - 1, w);
    MulStep(h - 1, w);
    assert h * w == w * h;
  }

  /** The three channels of pixel `k` lie inside the decoded buffer. */
  lemma ChannelsInBounds(k: int, n: int, c: int)
    requires 0 <= k < n && c >= 3
    ensures 0 <= k * c && k * c + 2 < n * c
  {
    MulMonotone(k, n - 1, c);
    MulStep(n - 1, c);
  }

  /** Texel `k` of a decoded image: channels 0, 1 and 2 of pixel `k`
      divided by 255; any further channel is ignored. */
  function Texel(img: Image, k: int): (c: Vec3.Vector3)
    requires Decoded(img) && 0 <= k < img.width * img.height
    ensures 0.0 <= c.x <= 1.0 && 0.0 <= c.y <= 1.0 && 0.0 <= c.z <= 1.0
  {
    ChannelsInBounds(k, img.width * img.height, img.channels);
    assert img.width * img.height * img.channels == (img.width * img.height) * img.channels;
    var p := k * img.channels;
    Vec3.Vector3(img.bytes[p] as real / 255.0, img.bytes[p + 1] as real / 255.0,
                 img.bytes[p + 2] as real / 255.0)
  }

  /** Every texel of a decoded image, in row-major order. */
  function Texels(img: Image): (s: seq<Vec3.Vector3>)
    requires Decoded(img)
    ensures |s| == img.width * img.height
    ensures forall k :: 0 <= k < |s| ==> s[k] == Texel(img, k)
  {
    seq(img.width * img.height, k requires 0 <= k < img.width * img.height => Texel(img, k))
  }

  /** The bytes at `pixelIndex = index * channels`, divided by 255, are
      texel `index`. */
  lemma ConvertedPixel(img: Image, index: int, pixelIndex: int)
    requires Decoded(img) && 0 <= index < img.width * img.height
    requires pixelIndex == index * img.channels
    ensures 0 <= pixelIndex && pixelIndex + 2 < |img.bytes|
    ensures Texel(img, index)
         == Vec3.Vector3(img.bytes[pixelIndex] as real / 255.0, img.bytes[pixelIndex + 1] as real / 255.0,
                         img.bytes[pixelIndex + 2] as real / 255.0)
  {
    ChannelsInBounds(index, img.width * img.height, img.channels);
    assert img.width * img.height * img.channels == (img.width * img.height) * img.channels;
  }

  /** `load`'s conversion loop: a fresh `width * height` array whose cell
      `y * width + x` holds the texel of pixel `(x, y)`. */
  method FillTexels(img: Image) returns (data: array<Vec3.Vector3>)
    requires Decoded(img)
    ensures fresh(data)
    ensures data[..] == Texels(img)
  {
    var width, height := img.width, img.height;
    data := new Vec3.Vector3[width * height];
    for y := 0 to height
      invariant y * width <= width * height
      invariant forall k :: 0 <= k < y * width ==> data[k] == Texel(img, k)
    {
      RowMajorInBounds(width - 1, y, width, height);
      FillRow(img, data, y);
      assert y * width + width == (y + 1) * width;
    }
    assert height * width == width * height;
  }

  /** One pass of the inner loop: row `y` of the grid is converted, the rows
      before it are left alone. */
  method FillRow(img: Image, data: array<Vec3.Vector3>, y: int)
    requires Decoded(img) && 0 <= y < img.height && data.Length == img.width * img.height
    requires y * img.width + img.width <= img.width * img.height
    requires forall k :: 0 <= k < y * img.width ==> data[k] == Texel(img, k)
    modifies data
    ensures forall k :: 0 <= k < y * img.width + img.width ==> data[k] == Texel(img, k)
  {
    var width := img.width;
    for x := 0 to width
      invariant y * width + x <= width * img.height
      invariant forall k :: 0 <= k < y * width + x ==> data[k] == Texel(img, k)
    {
      RowMajorInBounds(x, y, width, img.height);
      var index := y * width + x;
      var pixelIndex := (y * width + x) * img.channels;
      ConvertedPixel(img, index, pixelIndex);
      var r := img.bytes[pixelIndex] as real / 255.0;
      var g := img.bytes[pixelIndex + 1] as real / 255.0;
      var b := img.bytes[pixelIndex + 2] as real / 255.0;
      data[index] := Vec3.Vector3(r, g, b);
    }
  }

  /** What a texture object holds: its file name, its `dimensions` (stored as
      floating values) and its texel buffer (`None` for the null pointer). */
  datatype TextureState = TextureState(filename: string, dimensions: Vector2,
                                       data: Option<seq<Vec3.Vector3>>)

  /** The states `load` can leave behind: either no buffer and dimensions
      `(0, 0)`, or whole-number positive dimensions and a buffer of exactly
      that many texels. */
  predicate WellFormed(t: TextureState) {
    match t.data
    case None => t.dimensions == Vec2.Zero
    case Some(texels) =>
      && t.dimensions.x == t.dimensions.x.Floor as real && t.dimensions.x > 0.0
      && t.dimensions.y == t.dimensions.y.Floor as real && t.dimensions.y > 0.0
      && |texels| == t.dimensions.x.Floor * t.dimensions.y.Floor
  }

  /** The state the constructor `Texture(filename)` ends in, given what the
      decoder returned for that file. */
  function Loaded(filename: string, decoded: Option<Image>): (t: TextureState)
    requires decoded.Some? ==> Decoded(decoded.value)
    ensures WellFormed(t)
    ensures decoded.None? ==> t == TextureState(filename, Vec2.Zero, None)
    ensures decoded.Some? ==> t.dimensions == Vector2(decoded.value.width as real, decoded.value.height as real)
  {
    match decoded
    case None => TextureState(filename, Vec2.Zero, None)
    case Some(img) => TextureState(filename, Vector2(img.width as real, img.height as real), Some(Texels(img)))
  }

  /** `isValid()`: a buffer is present and both dimensions are positive. */
  predicate IsValid(t: TextureState) {
    t.data.Some? && t.dimensions.x > 0.0 && t.dimensions.y > 0.0
  }

  /** A texture is valid after construction exactly when its file decoded. */
  lemma LoadedIsValidIff(filename: string, decoded: Option<Image>)
    requires decoded.Some? ==> Decoded(decoded.value)
    ensures IsValid(Loaded(filename, decoded)) <==> decoded.Some?
  {
  }

  /** `getColor(x, y)`: black outside `[0, width) x [0, height)`, otherwise
      the texel at row-major index `y * width + x`. */
  function GetColor(t: TextureState, x: int, y: int): (c: Vec3.Vector3)
    requires WellFormed(t)
    ensures (x < 0 || x as real >= t.dimensions.x || y < 0 || y as real >= t.dimensions.y) ==> c == Vec3.Zero
    ensures (0 <= x && x as real < t.dimensions.x && 0 <= y && y as real < t.dimensions.y) ==>
      t.data.Some? && 0 <= y * t.dimensions.x.Floor + x < |t.data.value|
      && c == t.data.value[y * t.dimensions.x.Floor + x]
  {
    if x < 0 || x as real >= t.dimensions.x || y < 0 || y as real >= t.dimensions.y then
      Vec3.Vector3(0.0, 0.0, 0.0)
    else
      RowMajorInBounds(x, y, t.dimensions.x.Floor, t.dimensions.y.Floor);
      t.data.value[y * Trunc(t.dimensions.x) + x]
  }

  /** Every pixel of a decoded image reads back, through `getColor`, as the
      texel converted from its bytes. */
  lemma GetColorOfLoaded(filename: string, img: Image, x: int, y: int)
    requires Decoded(img) && 0 <= x < img.width && 0 <= y < img.height
    ensures 0 <= y * img.width + x < img.width * img.height
    ensures GetColor(Loaded(filename, Some(img)), x, y) == Texel(img, y * img.width + x)
  {
    RowMajorInBounds(x, y, img.width, img.height);
  }

  /** `lerp(a, b, t)`: `a * (1 - t) + b * t`, which is `a` at 0 and `b` at 1. */
  function Lerp(a: Vec3.Vector3, b: Vec3.Vector3, t: real): (c: Vec3.Vector3)
    ensures t == 0.0 ==> c == a
    ensures t == 1.0 ==> c == b
  {
    Vec3.Add(Vec3.Scale(a, 1.0 - t), Vec3.Scale(b, t))
  }

  /** The neighbouring texel index `std::min(i + 1, int(dimension) - 1)`:
      the next index, held back at the last row or column. */
  function Neighbour(i: int, dimension: real): (j: int)
    ensures j <= Trunc(dimension) - 1 && j <= i + 1
    ensures j == i + 1 || j == Trunc(dimension) - 1
  {
    if Trunc(dimension) - 1 < i + 1 then Trunc(dimension) - 1 else i + 1
  }

  /** Bilinear interpolation between four corner colours: first along `x`
      with weight `dx`, then along `y` with weight `dy`. With both weights 0
      it is the first corner. */
  function Bilinear(c00: Vec3.Vector3, c10: Vec3.Vector3, c01: Vec3.Vector3, c11: Vec3.Vector3,
                    dx: real, dy: real): (c: Vec3.Vector3)
    ensures dx == 0.0 && dy == 0.0 ==> c == c00
  {
    Lerp(Lerp(c00, c10, dx), Lerp(c01, c11, dx), dy)
  }

  /** `sample` at grid position `(x, y)`: the texel at the truncated
      position, its right, lower and diagonal neighbours, and the fractional
      parts as weights. */
  function SampleAt(t: TextureState, x: real, y: real): (c: Vec3.Vector3)
    requires WellFormed(t)
    ensures x == Trunc(x) as real && y == Trunc(y) as real ==> c == GetColor(t, Trunc(x), Trunc(y))
  {
    var x0, y0 := Trunc(x), Trunc(y);
    var x1, y1 := Neighbour(x0, t.dimensions.x), Neighbour(y0, t.dimensions.y);
    Bilinear(GetColor(t, x0, y0), GetColor(t, x1, y0), GetColor(t, x0, y1), GetColor(t, x1, y1),
             x - x0 as real, y - y0 as real)
  }

  /** `sample(texCoords)`: the coordinates scaled by the dimensions. */
  function Sample(t: TextureState, texCoords: Vector2): Vec3.Vector3
    requires WellFormed(t)
  {
    SampleAt(t, texCoords.x * t.dimensions.x, texCoords.y * t.dimensions.y)
  }

  /** A `Texture` object. The constructor runs `load`, which fills `data`
      and sets `dimensions` only when the file decoded. */
  class Texture {
    var filename: string
    var dimensions: Vector2
    var data: array?<Vec3.Vector3>

    function State(): TextureState
      reads this, data
    {
      TextureState(filename, dimensions, if data == null then None else Some(data[..]))
    }

    /** `Texture(filename)`: starts with no buffer and dimensions `(0, 0)`,
        then loads. */
    constructor (filename: string, decoded: Option<Image>)
      requires decoded.Some? ==> Decoded(decoded.value)
      ensures State() == Loaded(filename, decoded)
      ensures IsValid(State()) <==> decoded.Some?
    {
      this.filename := filename;
      dimensions := Vec2.Zero;
      data := null;
      new;
      Load(decoded);
      LoadedIsValidIff(filename, decoded);
    }

    /** `load()`: a failed decode changes nothing; a successful one sets the
        dimensions and a fresh buffer of converted texels. */
    method Load(decoded: Option<Image>)
      requires decoded.Some? ==> Decoded(decoded.value)
      modifies this
      ensures filename == old(filename)
      ensures decoded.None? ==> dimensions == old(dimensions) && data == old(data)
      ensures decoded.Some? ==> fresh(data) && State() == Loaded(filename, decoded)
    {
      if decoded.None? {
        return;
      }
      var img := decoded.value;
      dimensions := Vector2(img.width as real, img.height as real);
      data := FillTexels(img);
    }
  }
}
