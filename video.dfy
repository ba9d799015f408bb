/** The arithmetic of the video subsystem (tsc/src/video/video.cpp): the
    texture size cap, the box-filter image downscaler, the guards of the
    draw requests, the row order of saved screenshots and the resolution
    list. OpenGL, SFML, libpng and the render queue are outside the model:
    a draw call returns the request it would queue, and a saved surface is
    the sequence of rows handed to the PNG writer. */
module Video {
  import opened Common

  /** An `unsigned char`. */
  type Byte = x: int | 0 <= x < 256

  /** `Apply_Max_Texture_Size`: an over-wide image gets the maximum width
      and its height divided by the whole-number factor it was too wide;
      then an over-tall image likewise. `maxSize` is the GL limit. */
  method ApplyMaxTextureSize(width: int, height: int, maxSize: int) returns (w: int, h: int)
    requires maxSize > 0
    ensures w <= maxSize && h <= maxSize
    ensures width <= maxSize && height <= maxSize ==> w == width && h == height
    ensures width > maxSize && CDiv(height, width / maxSize) <= maxSize ==> w == maxSize && h == CDiv(height, width / maxSize)
    ensures width <= maxSize < height ==> w == CDiv(width, CDiv(height, maxSize)) && h == maxSize
    ensures width > maxSize && CDiv(height, width / maxSize) > maxSize ==>
              w == CDiv(maxSize, CDiv(CDiv(height, width / maxSize), maxSize)) && h == maxSize
    ensures width >= 0 && height >= 0 ==> 0 <= w <= width && 0 <= h <= height
  {
    w, h := width, height;
    if w > maxSize {
      var scaleDown := CDiv(w, maxSize);
      if scaleDown < 1 {
        scaleDown := 1;
      }
      h := CDiv(h, scaleDown);
      w := maxSize;
    }
    if h > maxSize {
      var scaleDown := CDiv(h, maxSize);
      if scaleDown < 1 {
        scaleDown := 1;
      }
      w := CDiv(w, scaleDown);
      h := maxSize;
    }
  }

  /** The arguments of `Downscale_Image` other than the buffers. */
  datatype Geometry = Geometry(width: int, height: int, channels: int, blockX: int, blockY: int)
  {
    predicate Valid()
    {
      width > 0 && height > 0 && channels > 0 && blockX > 0 && blockY > 0
    }

    /** The output width: `width / blockX`, at least 1. */
    function MipWidth(): (r: int)
      requires Valid()
      ensures r >= 1
    {
      Max(1, width / blockX)
    }

    /** The output height: `height / blockY`, at least 1. */
    function MipHeight(): (r: int)
      requires Valid()
      ensures r >= 1
    {
      Max(1, height / blockY)
    }

    /** The width of the block of output column `i`, as written: a block
        that would reach past the right edge is clipped to
        `width - i * blockY` (the vertical block size). */
    function UBlock(i: int): int
    {
      if blockX * (i + 1) > width then width - i * blockY else blockX
    }

    /** The evidently intended clip, `width - i * blockX`. */
    function UBlockIntended(i: int): int
    {
      if blockX * (i + 1) > width then width - i * blockX else blockX
    }

    /** The height of the block of output row `j`. */
    function VBlock(j: int): int
    {
      if blockY * (j + 1) > height then height - j * blockY else blockY
    }

    /** The offset of the first source byte of output pixel (`j`, `i`),
        channel `c`. */
    function SourceIndex(j: int, i: int, c: int): int
    {
      (j * blockY) * width * channels + (i * blockX) * channels + c
    }

    /** The offset of output pixel (`j`, `i`), channel `c`. */
    function TargetIndex(j: int, i: int, c: int): int
      requires Valid()
    {
      (j * MipWidth() + i) * channels + c
    }
  }

  lemma MulLe(a: int, b: int, k: int)
    requires a <= b && k >= 0
    ensures a * k <= b * k
  {
  }

  lemma MulAssoc(a: int, b: int, k: int)
    ensures a * b * k == a * (b * k)
  {
  }

  lemma MulDistrib(a: int, b: int, k: int)
    ensures (a + b) * k == a * k + b * k
  {
  }

  /** The clip of `Downscale_Image` only fires when the image is narrower
      than one block, and then only at column 0, where both formulas give
      `width`: the block size mix-up never changes the output. Every block
      is non-empty and lies inside the image. */
  lemma ColumnBlock(g: Geometry, i: int)
    requires g.Valid() && 0 <= i < g.MipWidth()
    ensures g.UBlock(i) == g.UBlockIntended(i)
    ensures 1 <= g.UBlock(i) <= g.blockX && i * g.blockX + g.UBlock(i) <= g.width
  {
    if g.width / g.blockX >= 1 {
      MulLe(i + 1, g.width / g.blockX, g.blockX);
      assert g.blockX * (g.width / g.blockX) <= g.width;
    } else {
      assert i == 0;
    }
  }

  lemma RowBlock(g: Geometry, j: int)
    requires g.Valid() && 0 <= j < g.MipHeight()
    ensures 1 <= g.VBlock(j) <= g.blockY && j * g.blockY + g.VBlock(j) <= g.height
  {
    if g.height / g.blockY >= 1 {
      MulLe(j + 1, g.height / g.blockY, g.blockY);
      assert g.blockY * (g.height / g.blockY) <= g.height;
    } else {
      assert j == 0;
    }
  }

  /** Image data read as zero outside the buffer (never needed: every read
      is in bounds). */
  function At(data: seq<Byte>, k: int): Byte
  {
    if 0 <= k < |data| then data[k] else 0
  }

  /** The sum of `n` bytes `step` apart from `start`. */
  function RowSum(data: seq<Byte>, start: int, step: int, n: int): int
    decreases n
  {
    if n <= 0 then 0 else RowSum(data, start, step, n - 1) + At(data, start + (n - 1) * step)
  }

  /** The sum over `rows` rows `stride` apart of `RowSum`s. */
  function BlockSum(data: seq<Byte>, start: int, stride: int, step: int, n: int, rows: int): int
    decreases rows
  {
    if rows <= 0 then 0
    else BlockSum(data, start, stride, step, n, rows - 1) + RowSum(data, start + (rows - 1) * stride, step, n)
  }

  lemma {:induction false} RowSumBounds(data: seq<Byte>, start: int, step: int, n: int)
    requires n >= 0
    decreases n
    ensures 0 <= RowSum(data, start, step, n) <= 255 * n
  {
    if n > 0 {
      RowSumBounds(data, start, step, n - 1);
    }
  }

  lemma {:induction false} BlockSumBounds(data: seq<Byte>, start: int, stride: int, step: int, n: int, rows: int)
    requires n >= 0 && rows >= 0
    decreases rows
    ensures 0 <= BlockSum(data, start, stride, step, n, rows) <= 255 * n * rows
  {
    if rows > 0 {
      BlockSumBounds(data, start, stride, step, n, rows - 1);
      RowSumBounds(data, start + (rows - 1) * stride, step, n);
      assert 255 * n * (rows - 1) + 255 * n == 255 * n * rows;
    }
  }

  /** The rounded mean of a block: `(sum + area / 2) / area`. */
  function RoundedMean(sum: int, area: int): int
    requires area > 0
  {
    (area / 2 + sum) / area
  }

  /** The rounded mean of bytes is a byte. */
  lemma RoundedMeanIsByte(sum: int, area: int)
    requires area > 0 && 0 <= sum <= 255 * area
    ensures 0 <= RoundedMean(sum, area) <= 255
  {
    var t := area / 2 + sum;
    assert 0 <= t < 256 * area;
    DivBounds(t, area);
  }

  /** The value `Downscale_Image` writes for output pixel (`j`, `i`),
      channel `c`: the rounded mean of its source block. */
  function OutputByte(orig: seq<Byte>, g: Geometry, j: int, i: int, c: int): (r: Byte)
    requires g.Valid() && 0 <= j < g.MipHeight() && 0 <= i < g.MipWidth()
  {
    ColumnBlock(g, i);
    RowBlock(g, j);
    var u := g.UBlock(i);
    var v := g.VBlock(j);
    MulLe(1, v, u);
    BlockSumBounds(orig, g.SourceIndex(j, i, c), g.width * g.channels, g.channels, u, v);
    RoundedMeanIsByte(BlockSum(orig, g.SourceIndex(j, i, c), g.width * g.channels, g.channels, u, v), u * v);
    RoundedMean(BlockSum(orig, g.SourceIndex(j, i, c), g.width * g.channels, g.channels, u, v), u * v)
  }

  /** Every byte a block reads lies in the source image. */
  lemma SourceInBounds(g: Geometry, j: int, i: int, c: int)
    requires g.Valid() && 0 <= j < g.MipHeight() && 0 <= i < g.MipWidth() && 0 <= c < g.channels
    ensures 0 <= g.SourceIndex(j, i, c)
    ensures g.SourceIndex(j, i, c) + (g.VBlock(j) - 1) * (g.width * g.channels) + (g.UBlock(i) - 1) * g.channels
            < g.width * g.height * g.channels
  {
    ColumnBlock(g, i);
    RowBlock(g, j);
    var ch := g.channels;
    var wc := g.width * ch;
    var y0 := j * g.blockY;
    var x0 := i * g.blockX;
    var v1 := g.VBlock(j) - 1;
    var u1 := g.UBlock(i) - 1;
    MulAssoc(y0, g.width, ch);
    assert g.SourceIndex(j, i, c) == y0 * wc + x0 * ch + c;
    MulLe(0, y0, wc);
    MulLe(0, x0, ch);
    MulDistrib(y0, v1, wc);
    MulDistrib(x0, u1, ch);
    MulLe(y0 + v1, g.height - 1, wc);
    MulLe(x0 + u1, g.width - 1, ch);
    MulDistrib(g.height - 1, 1, wc);
    MulDistrib(g.width - 1, 1, ch);
    assert g.height * wc == g.width * g.height * ch by {
      MulAssoc(g.height, g.width, ch);
    }
  }

  lemma InBlock(index: int, stride: int, step: int, u: int, v: int, uBlock: int, vBlock: int)
    requires index >= 0 && stride >= 0 && step >= 0 && 0 <= u < uBlock && 0 <= v < vBlock
    ensures 0 <= index + v * stride + u * step <= index + (vBlock - 1) * stride + (uBlock - 1) * step
  {
    MulLe(0, v, stride);
    MulLe(0, u, step);
    MulLe(v, vBlock - 1, stride);
    MulLe(u, uBlock - 1, step);
  }

  /** The two inner loops of `Downscale_Image`: add every byte of a
      `uBlock` by `vBlock` block to `init`. */
  method SumBlock(orig: seq<Byte>, init: int, index: int, stride: int, step: int, uBlock: int, vBlock: int)
    returns (sum: int)
    requires index >= 0 && stride >= 0 && step >= 0 && uBlock >= 1 && vBlock >= 1
    requires index + (vBlock - 1) * stride + (uBlock - 1) * step < |orig|
    ensures sum == init + BlockSum(orig, index, stride, step, uBlock, vBlock)
  {
    sum := init;
    var v := 0;
    while v < vBlock
      invariant 0 <= v <= vBlock
      invariant sum == init + BlockSum(orig, index, stride, step, uBlock, v)
    {
      var u := 0;
      while u < uBlock
        invariant 0 <= u <= uBlock
        invariant sum == init + BlockSum(orig, index, stride, step, uBlock, v) + RowSum(orig, index + v * stride, step, u)
      {
        InBlock(index, stride, step, u, v, uBlock, vBlock);
        sum := sum + orig[index + v * stride + u * step];
        u := u + 1;
      }
      v := v + 1;
    }
  }

  /** One output byte of `Downscale_Image`: the block sum, started at half
      the block area, divided by the area. */
  method BlockAverage(orig: seq<Byte>, g: Geometry, j: int, i: int, c: int) returns (value: Byte)
    requires g.Valid() && 0 <= j < g.MipHeight() && 0 <= i < g.MipWidth() && 0 <= c < g.channels
    requires |orig| >= g.width * g.height * g.channels
    ensures value == OutputByte(orig, g, j, i, c)
  {
    var index := g.SourceIndex(j, i, c);
    var uBlock := g.UBlock(i);
    var vBlock := g.VBlock(j);
    ColumnBlock(g, i);
    RowBlock(g, j);
    SourceInBounds(g, j, i, c);
    MulLe(1, vBlock, uBlock);
    var area := uBlock * vBlock;
    var sum := SumBlock(orig, area / 2, index, g.width * g.channels, g.channels, uBlock, vBlock);
    assert sum / area == OutputByte(orig, g, j, i, c);
    value := sum / area;
  }

  /** Output byte (`j1`, `i1`, `c1`) comes before (`j2`, `i2`, `c2`) in
      loop order. */
  predicate Before(j1: int, i1: int, c1: int, j2: int, i2: int, c2: int)
  {
    j1 < j2 || (j1 == j2 && (i1 < i2 || (i1 == i2 && c1 < c2)))
  }

  /** Output offsets grow in loop order and stay below the output size:
      each output byte is written exactly once. */
  lemma TargetOrder(g: Geometry, j1: int, i1: int, c1: int, j2: int, i2: int, c2: int)
    requires g.Valid()
    requires 0 <= j1 < g.MipHeight() && 0 <= i1 < g.MipWidth() && 0 <= c1 < g.channels
    requires 0 <= j2 < g.MipHeight() && 0 <= i2 < g.MipWidth() && 0 <= c2 < g.channels
    requires Before(j1, i1, c1, j2, i2, c2)
    ensures g.TargetIndex(j1, i1, c1) < g.TargetIndex(j2, i2, c2)
  {
    var mw := g.MipWidth();
    var p1 := j1 * mw + i1;
    var p2 := j2 * mw + i2;
    if j1 < j2 {
      MulLe(j1 + 1, j2, mw);
      MulDistrib(j1, 1, mw);
    }
    assert p1 <= p2;
    if p1 < p2 {
      MulLe(p1 + 1, p2, g.channels);
      MulDistrib(p1, 1, g.channels);
    }
  }

  lemma TargetInBounds(g: Geometry, j: int, i: int, c: int)
    requires g.Valid() && 0 <= j < g.MipHeight() && 0 <= i < g.MipWidth() && 0 <= c < g.channels
    ensures 0 <= g.TargetIndex(j, i, c) < g.MipWidth() * g.MipHeight() * g.channels
  {
    var mw := g.MipWidth();
    var ch := g.channels;
    var p := j * mw + i;
    MulLe(0, j, mw);
    MulLe(j + 1, g.MipHeight(), mw);
    MulDistrib(j, 1, mw);
    assert 0 <= p < g.MipHeight() * mw;
    MulLe(0, p, ch);
    MulLe(p + 1, g.MipHeight() * mw, ch);
    MulDistrib(p, 1, ch);
    assert g.MipHeight() * mw * ch == mw * g.MipHeight() * ch;
  }

  /** The bytes written so far hold their block means. */
  ghost predicate Written(a: array<Byte>, orig: seq<Byte>, g: Geometry, j: int, i: int, c: int)
    requires g.Valid()
    reads a
  {
    forall j', i', c' ::
      0 <= j' < g.MipHeight() && 0 <= i' < g.MipWidth() && 0 <= c' < g.channels && Before(j', i', c', j, i, c)
      ==> 0 <= g.TargetIndex(j', i', c') < a.Length && a[g.TargetIndex(j', i', c')] == OutputByte(orig, g, j', i', c')
  }

  lemma NextPixel(a: array<Byte>, orig: seq<Byte>, g: Geometry, j: int, i: int)
    requires g.Valid() && Written(a, orig, g, j, i, g.channels)
    ensures Written(a, orig, g, j, i + 1, 0)
  {
  }

  lemma NextRow(a: array<Byte>, orig: seq<Byte>, g: Geometry, j: int)
    requires g.Valid() && Written(a, orig, g, j, g.MipWidth(), 0)
    ensures Written(a, orig, g, j + 1, 0, 0)
  {
  }

  /** The channel loop of `Downscale_Image` for output pixel (`j`, `i`). */
  method DownscalePixel(orig: seq<Byte>, g: Geometry, a: array<Byte>, j: int, i: int)
    requires g.Valid() && 0 <= j < g.MipHeight() && 0 <= i < g.MipWidth()
    requires |orig| >= g.width * g.height * g.channels && a.Length >= g.MipWidth() * g.MipHeight() * g.channels
    requires Written(a, orig, g, j, i, 0)
    modifies a
    ensures Written(a, orig, g, j, i + 1, 0)
    ensures forall k :: g.MipWidth() * g.MipHeight() * g.channels <= k < a.Length ==> a[k] == old(a[k])
  {
    var mipWidth := g.MipWidth();
    var c := 0;
    while c < g.channels
      invariant 0 <= c <= g.channels
      invariant Written(a, orig, g, j, i, c)
      invariant forall k :: mipWidth * g.MipHeight() * g.channels <= k < a.Length ==> a[k] == old(a[k])
    {
      var value := BlockAverage(orig, g, j, i, c);
      TargetInBounds(g, j, i, c);
      forall j', i', c' | 0 <= j' < g.MipHeight() && 0 <= i' < mipWidth && 0 <= c' < g.channels && Before(j', i', c', j, i, c)
        ensures g.TargetIndex(j', i', c') < g.TargetIndex(j, i, c)
      {
        TargetOrder(g, j', i', c', j, i, c);
      }
      a[(j * mipWidth + i) * g.channels + c] := value;
      c := c + 1;
    }
    NextPixel(a, orig, g, j, i);
  }

  /** The column loop of `Downscale_Image` for output row `j`. */
  method DownscaleRow(orig: seq<Byte>, g: Geometry, a: array<Byte>, j: int)
    requires g.Valid() && 0 <= j < g.MipHeight()
    requires |orig| >= g.width * g.height * g.channels && a.Length >= g.MipWidth() * g.MipHeight() * g.channels
    requires Written(a, orig, g, j, 0, 0)
    modifies a
    ensures Written(a, orig, g, j + 1, 0, 0)
    ensures forall k :: g.MipWidth() * g.MipHeight() * g.channels <= k < a.Length ==> a[k] == old(a[k])
  {
    var i := 0;
    while i < g.MipWidth()
      invariant 0 <= i <= g.MipWidth()
      invariant Written(a, orig, g, j, i, 0)
      invariant forall k :: g.MipWidth() * g.MipHeight() * g.channels <= k < a.Length ==> a[k] == old(a[k])
    {
      DownscalePixel(orig, g, a, j, i);
      i := i + 1;
    }
    NextRow(a, orig, g, j);
  }

  /** `Downscale_Image`: invalid arguments or a null buffer give false and
      write nothing; otherwise every output byte is the rounded mean of its
      source block and nothing past the output is touched. */
  method DownscaleImage(orig: Option<seq<Byte>>, g: Geometry, resampled: array?<Byte>) returns (ok: bool)
    requires g.Valid() && orig.Some? && resampled != null ==>
      |orig.value| >= g.width * g.height * g.channels
      && resampled.Length >= g.MipWidth() * g.MipHeight() * g.channels
    modifies resampled
    ensures ok <==> g.Valid() && orig.Some? && resampled != null
    ensures !ok && resampled != null ==> unchanged(resampled)
    ensures ok ==> forall j, i, c :: 0 <= j < g.MipHeight() && 0 <= i < g.MipWidth() && 0 <= c < g.channels ==>
                                       0 <= g.TargetIndex(j, i, c) < resampled.Length
                                       && resampled[g.TargetIndex(j, i, c)] == OutputByte(orig.value, g, j, i, c)
    ensures ok ==> forall k :: g.MipWidth() * g.MipHeight() * g.channels <= k < resampled.Length ==>
                                 resampled[k] == old(resampled[k])
  {
    if !g.Valid() || orig.None? || resampled == null {
      return false;
    }
    var j := 0;
    while j < g.MipHeight()
      invariant 0 <= j <= g.MipHeight()
      invariant Written(resampled, orig.value, g, j, 0, 0)
      invariant forall k :: g.MipWidth() * g.MipHeight() * g.channels <= k < resampled.Length ==> resampled[k] == old(resampled[k])
    {
      DownscaleRow(orig.value, g, resampled, j);
      j := j + 1;
    }
    return true;
  }

  lemma {:induction false} RowSumConst(data: seq<Byte>, start: int, step: int, n: int, x: int)
    requires n >= 0 && forall u :: 0 <= u < n ==> At(data, start + u * step) == x
    decreases n
    ensures RowSum(data, start, step, n) == x * n
  {
    if n > 0 {
      RowSumConst(data, start, step, n - 1, x);
    }
  }

  lemma {:induction false} BlockSumConst(data: seq<Byte>, start: int, stride: int, step: int, n: int, rows: int, x: int)
    requires n >= 0 && rows >= 0
    requires forall v, u :: 0 <= v < rows && 0 <= u < n ==> At(data, start + v * stride + u * step) == x
    decreases rows
    ensures BlockSum(data, start, stride, step, n, rows) == x * n * rows
  {
    if rows > 0 {
      BlockSumConst(data, start, stride, step, n, rows - 1, x);
      var rowStart := start + (rows - 1) * stride;
      forall u | 0 <= u < n
        ensures At(data, rowStart + u * step) == x
      {
        assert At(data, start + (rows - 1) * stride + u * step) == x;
      }
      RowSumConst(data, rowStart, step, n, x);
      MulDistrib(rows - 1, 1, x * n);
      assert x * n * (rows - 1) == (rows - 1) * (x * n) && x * n * rows == rows * (x * n);
    }
  }

  /** A uniform image downscales to the same uniform value: the rounding
      term never pushes a mean past its block's common value. */
  lemma UniformImage(orig: seq<Byte>, g: Geometry, j: int, i: int, c: int, x: Byte)
    requires g.Valid() && 0 <= j < g.MipHeight() && 0 <= i < g.MipWidth() && 0 <= c < g.channels
    requires |orig| >= g.width * g.height * g.channels
    requires forall k :: 0 <= k < |orig| ==> orig[k] == x
    ensures OutputByte(orig, g, j, i, c) == x
  {
    ColumnBlock(g, i);
    RowBlock(g, j);
    SourceInBounds(g, j, i, c);
    var index := g.SourceIndex(j, i, c);
    var stride := g.width * g.channels;
    var u := g.UBlock(i);
    var v := g.VBlock(j);
    forall y, z | 0 <= y < v && 0 <= z < u
      ensures At(orig, index + y * stride + z * g.channels) == x
    {
      InBlock(index, stride, g.channels, z, y, u, v);
    }
    BlockSumConst(orig, index, stride, g.channels, u, v, x);
    MulLe(1, v, u);
    var area := u * v;
    MulAssoc(x, u, v);
    assert (area / 2 + x * area) / area == x by {
      MeanOfConstant(area / 2, area, x);
    }
  }

  lemma MeanOfConstant(r: int, b: int, x: int)
    requires 0 <= r < b
    ensures (r + x * b) / b == x
  {
    var q := (r + x * b) / b;
    assert r + x * b == b * q + (r + x * b) % b;
    if q < x {
      MulLe(q + 1, x, b);
      MulDistrib(q, 1, b);
    } else if q > x {
      MulLe(x + 1, q, b);
      MulDistrib(x, 1, b);
    }
  }

  /** An RGBA colour. */
  datatype Color = Color(red: Byte, green: Byte, blue: Byte, alpha: Byte)

  /** The render requests the draw calls fill. */
  datatype RectRequest = RectRequest(x: real, y: real, width: real, height: real, z: real, color: Color)
  datatype CircleRequest = CircleRequest(x: real, y: real, radius: real, z: real, color: Color)

  /** `Draw_Rect`: no colour or an empty side queues nothing. */
  function DrawRect(x: real, y: real, width: real, height: real, z: real, color: Option<Color>): (r: Option<RectRequest>)
    ensures r.None? <==> color.None? || width == 0.0 || height == 0.0
    ensures r.Some? ==> r.value.color == color.value && r.value.width == width && r.value.height == height
                        && r.value.x == x && r.value.y == y && r.value.z == z
  {
    if color.None? || height == 0.0 || width == 0.0 then None
    else Some(RectRequest(x, y, width, height, z, color.value))
  }

  /** `Draw_Circle`: no colour or a radius that is not positive queues
      nothing. */
  function DrawCircle(x: real, y: real, radius: real, z: real, color: Option<Color>): (r: Option<CircleRequest>)
    ensures r.None? <==> color.None? || radius <= 0.0
    ensures r.Some? ==> r.value.color == color.value && r.value.radius == radius && r.value.radius > 0.0
                        && r.value.x == x && r.value.y == y && r.value.z == z
  {
    if color.None? || radius <= 0.0 then None
    else Some(CircleRequest(x, y, radius, z, color.value))
  }

  /** A screen size. */
  datatype Size = Size(width: int, height: int)

  /** The list offered when the system reports no fullscreen mode. */
  const FallbackResolutions: seq<Size> :=
    [Size(2048, 1536), Size(1600, 1200), Size(1280, 1024), Size(1024, 768), Size(800, 600), Size(640, 480)]

  /** `Get_Supported_Resolutions`: the reported fullscreen modes in order,
      else the fallback list; never empty. */
  function SupportedResolutions(modes: seq<Size>): (r: seq<Size>)
    ensures r != []
    ensures modes != [] ==> r == modes
    ensures modes == [] ==> |r| == 6 && r[0] == Size(2048, 1536) && r[5] == Size(640, 480)
  {
    if modes == [] then FallbackResolutions else modes
  }

  /** The colour layouts `Save_Surface` can write. */
  datatype PngColorType = ColorRgb | ColorRgba

  /** What reaches the PNG writer: the layout and the rows in file order. */
  datatype PngImage = PngImage(colorType: PngColorType, width: nat, height: nat, rows: seq<seq<Byte>>)

  /** Row `i` of a buffer of `rowBytes`-byte rows. */
  function Row(data: seq<Byte>, rowBytes: nat, i: nat): seq<Byte>
    requires (i + 1) * rowBytes <= |data|
  {
    data[i * rowBytes .. (i + 1) * rowBytes]
  }

  /** `Save_Surface`: a file that cannot be created or a byte count other
      than 3 or 4 writes nothing; otherwise the rows go out top to bottom,
      or bottom to top when `reverseData` (OpenGL's read order). */
  method SaveSurface(data: seq<Byte>, width: nat, height: nat, bpp: nat, reverseData: bool, canCreate: bool)
    returns (r: Option<PngImage>)
    requires canCreate && (bpp == 3 || bpp == 4) ==> |data| >= height * (width * bpp)
    ensures r.Some? <==> canCreate && (bpp == 3 || bpp == 4)
    ensures r.Some? ==> r.value.colorType == (if bpp == 4 then ColorRgba else ColorRgb)
                        && r.value.width == width && r.value.height == height && |r.value.rows| == height
    ensures r.Some? ==> forall i :: 0 <= i < height ==>
                          (i + 1) * (width * bpp) <= |data|
                          && r.value.rows[Slot(reverseData, height, i)] == Row(data, width * bpp, i)
  {
    if !canCreate {
      return None;
    }
    var colorType;
    if bpp == 4 {
      colorType := ColorRgba;
    } else if bpp == 3 {
      colorType := ColorRgb;
    } else {
      return None;
    }
    var rows := PngRows(data, height, width * bpp, reverseData);
    return Some(PngImage(colorType, width, height, rows));
  }

  /** The image copy and row pointers of `Save_Surface`, read out as the
      rows the PNG writer receives. */
  method PngRows(data: seq<Byte>, height: nat, rowBytes: nat, reverseData: bool) returns (rows: seq<seq<Byte>>)
    requires |data| >= height * rowBytes
    ensures |rows| == height
    ensures forall k :: 0 <= k < height ==> (k + 1) * rowBytes <= |data|
                                            && rows[Slot(reverseData, height, k)] == Row(data, rowBytes, k)
  {
    var image := data[..height * rowBytes];
    var rowStarts := RowPointers(height, rowBytes, reverseData);
    StartsInImage(height, rowBytes, reverseData, rowStarts[..]);
    rows := RowsAt(image, rowStarts[..], rowBytes);
    RowsInFileOrder(data, height, rowBytes, reverseData, rowStarts[..]);
  }

  /** The rows the PNG writer reads through the row pointers. */
  function RowsAt(image: seq<Byte>, starts: seq<nat>, rowBytes: nat): (r: seq<seq<Byte>>)
    requires forall k :: 0 <= k < |starts| ==> starts[k] + rowBytes <= |image|
    ensures |r| == |starts|
  {
    seq(|starts|, k requires 0 <= k < |starts| => image[starts[k] .. starts[k] + rowBytes])
  }

  lemma StartsInImage(height: nat, rowBytes: nat, reverseData: bool, starts: seq<nat>)
    requires |starts| == height
    requires forall k :: 0 <= k < height ==> starts[k] == Slot(reverseData, height, k) * rowBytes
    ensures forall k :: 0 <= k < height ==> starts[k] + rowBytes <= height * rowBytes
  {
    forall k | 0 <= k < height
      ensures starts[k] + rowBytes <= height * rowBytes
    {
      RowInImage(Slot(reverseData, height, k), height, rowBytes);
    }
  }

  lemma RowsInFileOrder(data: seq<Byte>, height: nat, rowBytes: nat, reverseData: bool, starts: seq<nat>)
    requires |data| >= height * rowBytes && |starts| == height
    requires forall k :: 0 <= k < height ==> starts[k] == Slot(reverseData, height, k) * rowBytes
    requires forall k :: 0 <= k < height ==> starts[k] + rowBytes <= height * rowBytes
    ensures forall k :: 0 <= k < height ==> (k + 1) * rowBytes <= |data|
                                            && RowsAt(data[..height * rowBytes], starts, rowBytes)[Slot(reverseData, height, k)]
                                               == Row(data, rowBytes, k)
  {
    forall k | 0 <= k < height
      ensures (k + 1) * rowBytes <= |data|
      ensures RowsAt(data[..height * rowBytes], starts, rowBytes)[Slot(reverseData, height, k)] == Row(data, rowBytes, k)
    {
      RowInFileOrder(data, height, rowBytes, reverseData, starts, k);
    }
  }

  lemma RowInFileOrder(data: seq<Byte>, height: nat, rowBytes: nat, reverseData: bool, starts: seq<nat>, k: nat)
    requires |data| >= height * rowBytes && |starts| == height && k < height
    requires forall k :: 0 <= k < height ==> starts[k] == Slot(reverseData, height, k) * rowBytes
    requires forall k :: 0 <= k < height ==> starts[k] + rowBytes <= height * rowBytes
    ensures (k + 1) * rowBytes <= |data|
    ensures RowsAt(data[..height * rowBytes], starts, rowBytes)[Slot(reverseData, height, k)] == Row(data, rowBytes, k)
  {
    var s := Slot(reverseData, height, k);
    assert 0 <= s < height && Slot(reverseData, height, s) == k;
    assert starts[s] == k * rowBytes;
    RowInImage(k, height, rowBytes);
    PrefixRow(data, height * rowBytes, rowBytes, k);
  }

  /** The row pointers of `Save_Surface`: file row `Slot(k)` starts at
      buffer row `k`. */
  method RowPointers(height: nat, rowBytes: nat, reverseData: bool) returns (rowStarts: array<nat>)
    ensures fresh(rowStarts) && rowStarts.Length == height
    ensures forall k :: 0 <= k < height ==> rowStarts[k] == Slot(reverseData, height, k) * rowBytes
  {
    rowStarts := new nat[height];
    var i := 0;
    while i < height
      invariant 0 <= i <= height
      invariant forall k :: 0 <= k < i ==> rowStarts[Slot(reverseData, height, k)] == k * rowBytes
    {
      if reverseData {
        rowStarts[height - 1 - i] := i * rowBytes;
      } else {
        rowStarts[i] := i * rowBytes;
      }
      i := i + 1;
    }
    forall k | 0 <= k < height
      ensures rowStarts[k] == Slot(reverseData, height, k) * rowBytes
    {
      assert Slot(reverseData, height, Slot(reverseData, height, k)) == k;
    }
  }

  lemma PrefixRow(data: seq<Byte>, n: int, rowBytes: nat, r: nat)
    requires 0 <= r * rowBytes && (r + 1) * rowBytes == r * rowBytes + rowBytes && (r + 1) * rowBytes <= n <= |data|
    ensures data[..n][r * rowBytes .. r * rowBytes + rowBytes] == Row(data, rowBytes, r)
  {
  }

  /** The file row that buffer row `k` goes to (and back: an involution). */
  function Slot(reverseData: bool, height: int, k: int): int
  {
    if reverseData then height - 1 - k else k
  }

  lemma RowInImage(i: int, height: int, rowBytes: nat)
    requires 0 <= i < height
    ensures 0 <= i * rowBytes && (i + 1) * rowBytes <= height * rowBytes
    ensures (i + 1) * rowBytes == i * rowBytes + rowBytes
  {
    MulLe(0, i, rowBytes);
    MulLe(i + 1, height, rowBytes);
    MulDistrib(i, 1, rowBytes);
  }

  /** Rows written in reverse order are a permutation of the buffer's
      rows. */
  lemma {:induction false} ReversedRowsPermutation(a: seq<seq<Byte>>, b: seq<seq<Byte>>)
    requires |a| == |b| && forall i :: 0 <= i < |a| ==> b[|a| - 1 - i] == a[i]
    ensures multiset(a) == multiset(b)
  {
    if a != [] {
      var n := |a|;
      ReversedRowsPermutation(a[1..], b[..n - 1]);
      assert a == [a[0]] + a[1..];
      assert b == b[..n - 1] + [b[n - 1]];
    }
  }
}
