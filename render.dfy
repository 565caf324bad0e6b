/** `render(scene, camera)`: trace one primary ray per pixel into a
    `[column][row]` image, then emit the image as a plain PPM, the rows from
    the last (`j = height - 1`) down to the first, each channel quantised
    to `int(255.99 * c)`. The file itself is not written here: the result is
    the header fields and the sequence of emitted triples. */
module Render {
  import opened MathLib
  import opened Vec3
  import CC = CameraClasses
  import Scenes
  import RayTrace
  import Rays

  /** One emitted pixel: three integers. */
  datatype Triple = Triple(r: int, g: int, b: int)

  /** The emitted image: the `P3` magic, the dimensions, the maximum value
      255 and the pixels in emission order. */
  datatype Ppm = Ppm(magic: string, width: int, height: int, maxval: int, pixels: seq<Triple>)

  /** `i / n` for a pixel index. For `0 <= i < n` it lies in `[0, 1)`. */
  function PixelCoordinate(i: int, n: int): (c: real)
    ensures 0 <= i < n ==> 0.0 <= c < 1.0
  {
    Quot(i as real, n as real)
  }

  /** The primary ray of pixel `(i, j)`. */
  function PixelRay(m: Libm, cam: CC.Camera, i: int, j: int): Rays.Ray {
    CC.GenerateRay(m, cam, PixelCoordinate(i, cam.imgWidth), PixelCoordinate(j, cam.imgHeight))
  }

  /** The colour `ray_trace` gives pixel `(i, j)` at depth 0. */
  function Pixel(m: Libm, env: RayTrace.Env, w: Scenes.World, cam: CC.Camera, i: int, j: int): Vector3
    requires Scenes.WellFormedWorld(w)
  {
    RayTrace.Shade(m, env, w, cam, PixelRay(m, cam, i, j), 0)
  }

  /** Columns `0` to `k - 1` of the traced image: `Traced(..., width)[i][j]`
      is the colour of pixel `(i, j)`. */
  function Traced(m: Libm, env: RayTrace.Env, w: Scenes.World, cam: CC.Camera, k: nat): (g: seq<seq<Vector3>>)
    requires Scenes.WellFormedWorld(w) && cam.imgHeight >= 0
    ensures IsTraced(m, env, w, cam, g, k)
  {
    if k == 0 then []
    else
      var g := Traced(m, env, w, cam, k - 1);
      var col := seq(cam.imgHeight, j => Pixel(m, env, w, cam, k - 1, j));
      assert forall j {:trigger Pixel(m, env, w, cam, k - 1, j)} :: 0 <= j < cam.imgHeight ==>
        col[j] == Pixel(m, env, w, cam, k - 1, j);
      TracedAppend(m, env, w, cam, g, col, k);
      g + [col]
  }

  /** One more column keeps the grid traced. */
  lemma TracedAppend(m: Libm, env: RayTrace.Env, w: Scenes.World, cam: CC.Camera,
                     g: seq<seq<Vector3>>, col: seq<Vector3>, k: int)
    requires Scenes.WellFormedWorld(w)
    requires IsTraced(m, env, w, cam, g, k - 1)
    requires |col| == cam.imgHeight
    requires forall j {:trigger Pixel(m, env, w, cam, k - 1, j)} :: 0 <= j < cam.imgHeight ==>
      col[j] == Pixel(m, env, w, cam, k - 1, j)
    ensures IsTraced(m, env, w, cam, g + [col], k)
  {
    var h := g + [col];
    forall i, j | 0 <= i < |h| && 0 <= j < cam.imgHeight
      ensures h[i][j] == Pixel(m, env, w, cam, i, j)
    {
      if i < k - 1 {
        assert h[i] == g[i];
      } else {
        assert h[i] == col;
      }
    }
  }

  /** `grid` holds `k` columns of `height` traced colours each. */
  predicate IsTraced(m: Libm, env: RayTrace.Env, w: Scenes.World, cam: CC.Camera, grid: seq<seq<Vector3>>, k: int)
    requires Scenes.WellFormedWorld(w)
  {
    && |grid| == k
    && (forall i :: 0 <= i < |grid| ==> |grid[i]| == cam.imgHeight)
    && (forall i, j {:trigger Pixel(m, env, w, cam, i, j)} :: 0 <= i < |grid| && 0 <= j < cam.imgHeight ==>
          grid[i][j] == Pixel(m, env, w, cam, i, j))
  }

  /** `int(255.99 * c)`: truncated toward zero, not clamped. */
  function Quantize(c: real): (q: int)
    ensures 0.0 <= c <= 1.0 ==> 0 <= q <= 255
    ensures c > 1.0 ==> q >= 255
  {
    Trunc(255.99 * c)
  }

  function ToTriple(c: Vector3): Triple {
    Triple(Quantize(c.x), Quantize(c.y), Quantize(c.z))
  }

  /** Row `j` of the image, left to right. */
  function Row(image: array2<Vector3>, j: int): (row: seq<Triple>)
    requires 0 <= j < image.Length1
    reads image
    ensures |row| == image.Length0
    ensures forall i :: 0 <= i < image.Length0 ==> row[i] == ToTriple(image[i, j])
  {
    seq(image.Length0, i requires 0 <= i < image.Length0 reads image => ToTriple(image[i, j]))
  }

  /** The first `k` emitted rows: rows `height - 1` down to `height - k`. */
  function Emitted(image: array2<Vector3>, k: nat): seq<Triple>
    requires k <= image.Length1
    reads image
  {
    if k == 0 then [] else Emitted(image, k - 1) + Row(image, image.Length1 - k)
  }

  /** The emitted sequence has one triple per pixel, and triple `r * width
      + i` is pixel `(i, height - 1 - r)`: row `r` of the output is image row
      `height - 1 - r`. */
  lemma {:induction false} EmittedLayout(image: array2<Vector3>, k: nat)
    requires k <= image.Length1
    ensures |Emitted(image, k)| == k * image.Length0
    ensures forall r, i :: 0 <= r < k && 0 <= i < image.Length0 ==>
      RowMajor(r, i, image.Length0) < |Emitted(image, k)|
      && Emitted(image, k)[RowMajor(r, i, image.Length0)] == ToTriple(image[i, image.Length1 - 1 - r])
  {
    var w := image.Length0;
    if k > 0 {
      EmittedLayout(image, k - 1);
      var prev := Emitted(image, k - 1);
      var row := Row(image, image.Length1 - k);
      assert |prev| == (k - 1) * w;
      assert (k - 1) * w + w == k * w;
      forall r, i | 0 <= r < k && 0 <= i < w
        ensures RowMajor(r, i, w) < |prev + row|
        ensures (prev + row)[RowMajor(r, i, w)] == ToTriple(image[i, image.Length1 - 1 - r])
      {
        if r < k - 1 {
          RowMajorBound(r, i, w, k - 1);
        } else {
          assert RowMajor(r, i, w) == (k - 1) * w + i;
        }
      }
    }
  }

  /** `r * width + i`. */
  function RowMajor(r: int, i: int, w: int): int {
    r * w + i
  }

  lemma RowMajorBound(r: int, i: int, w: int, k: int)
    requires 0 <= r < k && 0 <= i < w
    ensures 0 <= RowMajor(r, i, w) < k * w
  {
    MulMonotone(r, k - 1, w);
    assert (k - 1) * w + w == k * w;
  }

  /** The first loop: every pixel `(i, j)` gets `ray_trace` of its primary
      ray at depth 0, each written once. `grid` names the colours. */
  method FillImage(m: Libm, env: RayTrace.Env, scene: Scenes.Scene, ghost w: Scenes.World, cam: CC.Camera,
                   ghost grid: seq<seq<Vector3>>)
    returns (image: array2<Vector3>)
    requires cam.imgWidth >= 0 && cam.imgHeight >= 0
    requires w == scene.Contents() && Scenes.WellFormedWorld(w)
    requires IsTraced(m, env, w, cam, grid, cam.imgWidth)
    ensures fresh(image)
    ensures image.Length0 == cam.imgWidth && image.Length1 == cam.imgHeight
    ensures forall i, j :: 0 <= i < cam.imgWidth && 0 <= j < cam.imgHeight ==> image[i, j] == grid[i][j]
  {
    image := new Vector3[cam.imgWidth, cam.imgHeight];
    var j := 0;
    while j < cam.imgHeight
      invariant 0 <= j <= cam.imgHeight
      invariant forall i, jj :: 0 <= i < cam.imgWidth && 0 <= jj < j ==> image[i, jj] == grid[i][jj]
    {
      FillRow(m, env, scene, w, cam, grid, image, j);
      j := j + 1;
    }
  }

  /** One pass of the inner loop: column by column, row `j` gets its traced
      colours and every other row is left as it was. */
  method FillRow(m: Libm, env: RayTrace.Env, scene: Scenes.Scene, ghost w: Scenes.World, cam: CC.Camera,
                 ghost grid: seq<seq<Vector3>>, image: array2<Vector3>, j: int)
    requires w == scene.Contents() && Scenes.WellFormedWorld(w)
    requires IsTraced(m, env, w, cam, grid, cam.imgWidth)
    requires image.Length0 == cam.imgWidth && image.Length1 == cam.imgHeight
    requires 0 <= j < cam.imgHeight
    modifies image
    ensures forall i :: 0 <= i < cam.imgWidth ==> image[i, j] == grid[i][j]
    ensures forall i, jj :: 0 <= i < cam.imgWidth && 0 <= jj < cam.imgHeight && jj != j ==>
      image[i, jj] == old(image[i, jj])
  {
    var i := 0;
    while i < cam.imgWidth
      invariant 0 <= i <= cam.imgWidth
      invariant forall ii :: 0 <= ii < i ==> image[ii, j] == grid[ii][j]
      invariant forall ii, jj :: 0 <= ii < cam.imgWidth && 0 <= jj < cam.imgHeight && jj != j ==>
        image[ii, jj] == old(image[ii, jj])
    {
      var color := TracePixel(m, env, scene, w, cam, grid, i, j);
      image[i, j] := color;
      i := i + 1;
    }
  }

  /** The loop body: the primary ray through `(i / width, j / height)`,
      traced at depth 0. */
  method TracePixel(m: Libm, env: RayTrace.Env, scene: Scenes.Scene, ghost w: Scenes.World, cam: CC.Camera,
                    ghost grid: seq<seq<Vector3>>, i: int, j: int) returns (color: Vector3)
    requires w == scene.Contents() && Scenes.WellFormedWorld(w)
    requires IsTraced(m, env, w, cam, grid, cam.imgWidth)
    requires 0 <= i < cam.imgWidth && 0 <= j < cam.imgHeight
    ensures color == grid[i][j]
  {
    var u := PixelCoordinate(i, cam.imgWidth);
    var v := PixelCoordinate(j, cam.imgHeight);
    var ray := CC.GenerateRay(m, cam, u, v);
    color := RayTrace.Trace(m, env, scene, cam, ray, 0);
    assert grid[i][j] == Pixel(m, env, w, cam, i, j);
  }

  /** The second loop: rows from `height - 1` down to 0, columns left to
      right, one quantised triple per pixel. */
  method Write(image: array2<Vector3>) returns (ppm: Ppm)
    ensures ppm.magic == "P3" && ppm.width == image.Length0 && ppm.height == image.Length1 && ppm.maxval == 255
    ensures |ppm.pixels| == image.Length0 * image.Length1
    ensures forall r, i :: 0 <= r < image.Length1 && 0 <= i < image.Length0 ==>
      RowMajor(r, i, image.Length0) < |ppm.pixels|
      && ppm.pixels[RowMajor(r, i, image.Length0)] == ToTriple(image[i, image.Length1 - 1 - r])
  {
    var width, height := image.Length0, image.Length1;
    var pixels := [];
    var j := height - 1;
    while j >= 0
      invariant -1 <= j < height
      invariant pixels == Emitted(image, height - 1 - j)
    {
      var row := [];
      var i := 0;
      while i < width
        invariant 0 <= i <= width
        invariant row == Row(image, j)[..i]
      {
        var c := image[i, j];
        row := row + [Triple(Quantize(c.x), Quantize(c.y), Quantize(c.z))];
        i := i + 1;
      }
      assert row == Row(image, j);
      pixels := pixels + row;
      j := j - 1;
    }
    ppm := Ppm("P3", width, height, 255, pixels);
    WriteLayout(image, pixels, width, height);
  }

  /** The written pixels, read back by position: `r * width + i` carries
      image pixel `(i, height - 1 - r)`, and there is one per pixel. */
  lemma WriteLayout(image: array2<Vector3>, pixels: seq<Triple>, width: int, height: int)
    requires width == image.Length0 && height == image.Length1
    requires pixels == Emitted(image, image.Length1)
    ensures |pixels| == width * height
    ensures forall r, i :: 0 <= r < height && 0 <= i < width ==>
      RowMajor(r, i, width) < |pixels| && pixels[RowMajor(r, i, width)] == ToTriple(image[i, height - 1 - r])
  {
    EmittedLayout(image, image.Length1);
    MulCommutes(image.Length1, image.Length0);
  }

  /** The two loops composed: position `r * width + i` of the output is the
      triple of `grid[i][height - 1 - r]`, and there is one triple per pixel. */
  lemma RenderLayout(grid: seq<seq<Vector3>>, image: array2<Vector3>, pixels: seq<Triple>, width: int, height: int)
    requires image.Length0 == width && image.Length1 == height
    requires |grid| == width && forall i :: 0 <= i < width ==> |grid[i]| == height
    requires |pixels| == image.Length0 * image.Length1
    requires forall i, j :: 0 <= i < width && 0 <= j < height ==> image[i, j] == grid[i][j]
    requires forall r, i :: 0 <= r < image.Length1 && 0 <= i < image.Length0 ==>
      RowMajor(r, i, image.Length0) < |pixels|
      && pixels[RowMajor(r, i, image.Length0)] == ToTriple(image[i, image.Length1 - 1 - r])
    ensures |pixels| == width * height
    ensures forall r, i :: 0 <= r < height && 0 <= i < width ==>
      RowMajor(r, i, width) < |pixels| && pixels[RowMajor(r, i, width)] == ToTriple(grid[i][height - 1 - r])
  {
    forall r, i | 0 <= r < height && 0 <= i < width
      ensures RowMajor(r, i, width) < |pixels| && pixels[RowMajor(r, i, width)] == ToTriple(grid[i][height - 1 - r])
    {
      assert image[i, height - 1 - r] == grid[i][height - 1 - r];
    }
  }

  /** `render`: the image is filled with the traced colours, then emitted
      row `height - 1` first, so position `(height - 1 - j) * width + i` of
      the output carries pixel `(i, j)`. */
  method Render(m: Libm, env: RayTrace.Env, scene: Scenes.Scene, ghost w: Scenes.World, cam: CC.Camera)
    returns (ppm: Ppm)
    requires cam.imgWidth >= 0 && cam.imgHeight >= 0
    requires w == scene.Contents() && Scenes.WellFormedWorld(w)
    ensures ppm.magic == "P3" && ppm.width == cam.imgWidth && ppm.height == cam.imgHeight && ppm.maxval == 255
    ensures |ppm.pixels| == cam.imgWidth * cam.imgHeight
    ensures forall r, i :: 0 <= r < cam.imgHeight && 0 <= i < cam.imgWidth ==>
      RowMajor(r, i, cam.imgWidth) < |ppm.pixels|
      && ppm.pixels[RowMajor(r, i, cam.imgWidth)] == ToTriple(Traced(m, env, w, cam, cam.imgWidth)[i][cam.imgHeight - 1 - r])
  {
    var image := FillImage(m, env, scene, w, cam, Traced(m, env, w, cam, cam.imgWidth));
    ppm := Write(image);
    RenderLayout(Traced(m, env, w, cam, cam.imgWidth), image, ppm.pixels, cam.imgWidth, cam.imgHeight);
  }
}
