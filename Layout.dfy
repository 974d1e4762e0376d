/**
 * The two buffer-layout conversions of the upscaler: an interleaved RGBA
 * `ImageData` buffer to a channel-major NCHW float tensor, and back.
 * Pixel values are exact reals; `Float32Array` rounding is not modelled.
 */
module Layout {
  import opened Wrappers

  /** An `ort.Tensor` of type float32: its shape and its flat data buffer. */
  datatype Tensor = Tensor(dims: seq<int>, data: seq<real>)

  /**
   * The browser's `ImageData`: a width, a height and a byte buffer of
   * R, G, B, A per pixel, row-major from the top-left corner.
   */
  class ImageData {
    const width: nat
    const height: nat
    const data: array<int>

    /**
     * `new ImageData(width, height)`: a transparent black buffer of
     * `width * height * 4` bytes. The browser refuses a zero size.
     */
    constructor (width: nat, height: nat)
      requires Accepts(width, height)
      ensures this.width == width && this.height == height
      ensures fresh(data) && data.Length == width * height * 4
      ensures forall k :: 0 <= k < data.Length ==> data[k] == 0
    {
      this.width := width;
      this.height := height;
      data := new int[width * height * 4](_ => 0);
    }
  }

  /** The sizes the `ImageData` constructor accepts: it throws `IndexSizeError` for a zero width or height. */
  predicate Accepts(width: int, height: int) {
    width >= 1 && height >= 1
  }

  // ---------------------------------------------------------------------
  // Index maps

  /** Position of channel `c` of pixel (row `y`, column `x`) in an RGBA buffer `width` pixels wide. */
  function RgbaIndex(y: int, x: int, width: int, c: int): int {
    (y * width + x) * 4 + c
  }

  /** Position of element (channel `c`, row `h`, column `w`) in an NCHW buffer of `H` rows and `W` columns. */
  function NchwIndex(c: int, h: int, w: int, H: int, W: int): int {
    c * H * W + h * W + w
  }

  /** Euclidean division is unique: a quotient and remainder in range are the ones `/` and `%` give. */
  lemma DivModUnique(a: int, d: int, q: int, r: int)
    requires d > 0 && 0 <= r < d && a == q * d + r
    ensures a / d == q && a % d == r
  {
    var q', r' := a / d, a % d;
    assert a == q' * d + r' && 0 <= r' < d;
    if q' < q {
      assert (q - q') * d >= d by { MulAtLeast(q - q', d); }
    } else if q' > q {
      assert (q' - q) * d >= d by { MulAtLeast(q' - q, d); }
    }
  }

  lemma MulAtLeast(k: int, d: int)
    requires k >= 1 && d >= 0
    ensures k * d >= d
  {
  }

  /** A row-major pixel position `y * W + x` with `y < H` and `x < W` lies inside a buffer of `H * W` pixels. */
  lemma PixelInRange(y: int, x: int, H: int, W: int)
    requires 0 <= y < H && 0 <= x < W
    ensures 0 <= y * W + x < H * W
  {
    assert y * W <= (H - 1) * W;
  }

  /**
   * The NCHW map of (c, h, w) is the channel `c` block followed by the pixel
   * position, so it lies inside `3 * H * W` and `/` and `%` recover c, h and w.
   */
  lemma NchwDecode(c: int, h: int, w: int, H: nat, W: nat)
    requires 0 <= c < 3 && 0 <= h < H && 0 <= w < W
    ensures var k := NchwIndex(c, h, w, H, W);
      H * W > 0 && 0 <= k < 3 * (H * W) &&
      k / (H * W) == c && (k % (H * W)) / W == h && (k % (H * W)) % W == w
  {
    var p := h * W + w;
    PixelInRange(h, w, H, W);
    var k := NchwIndex(c, h, w, H, W);
    assert k == c * (H * W) + p;
    assert c * (H * W) <= 2 * (H * W);
    DivModUnique(k, H * W, c, p);
    DivModUnique(p, W, h, w);
  }

  /** Every position of an NCHW buffer of `3 * H * W` elements is the image of exactly the (c, h, w) that `/` and `%` give. */
  lemma NchwEncode(k: int, H: nat, W: nat)
    requires 0 <= k < 3 * (H * W)
    ensures H * W > 0 && W > 0
    ensures var c, p := k / (H * W), k % (H * W);
      0 <= c < 3 && 0 <= p / W < H && 0 <= p % W < W &&
      NchwIndex(c, p / W, p % W, H, W) == k
  {
    var hw := H * W;
    assert hw > 0 && W > 0;
    var c, p := k / hw, k % hw;
    QuotientBelow(k, hw, 3);
    QuotientBelow(p, W, H);
    var h, w := p / W, p % W;
    assert k == c * hw + p && p == h * W + w;
    MulAssoc(c, H, W);
  }

  lemma MulAssoc(a: int, b: int, c: int)
    ensures a * b * c == a * (b * c)
  {
  }

  /** A quotient of a value below `n * d` by `d` is below `n`. */
  lemma QuotientBelow(a: int, d: int, n: int)
    requires d > 0 && 0 <= a < n * d
    ensures 0 <= a / d < n
  {
    var q := a / d;
    assert a == q * d + a % d && 0 <= a % d;
    MulMono(n, q, d);
  }

  lemma MulMono(n: int, q: int, d: int)
    ensures d >= 0 && n <= q ==> n * d <= q * d
  {
  }

  /** The RGBA map of (y, x, c) lies inside a buffer of `H * W * 4` bytes and `/` and `%` recover y, x and c. */
  lemma RgbaDecode(y: int, x: int, c: int, H: nat, W: nat)
    requires 0 <= y < H && 0 <= x < W && 0 <= c < 4
    ensures var k := RgbaIndex(y, x, W, c);
      W > 0 && 0 <= k < H * W * 4 && k % 4 == c && (k / 4) / W == y && (k / 4) % W == x
  {
    PixelInRange(y, x, H, W);
    var k := RgbaIndex(y, x, W, c);
    DivModUnique(k, 4, y * W + x, c);
    DivModUnique(y * W + x, W, y, x);
  }

  /** Every position of an RGBA buffer of `H * W * 4` bytes is the image of the (y, x, c) that `/` and `%` give. */
  lemma RgbaEncode(k: int, H: nat, W: nat)
    requires 0 <= k < H * W * 4
    ensures W > 0
    ensures var p := k / 4;
      0 <= p / W < H && 0 <= p % W < W && RgbaIndex(p / W, p % W, W, k % 4) == k
  {
    assert W > 0;
    var p := k / 4;
    QuotientBelow(k, 4, H * W);
    QuotientBelow(p, W, H);
  }

  // ---------------------------------------------------------------------
  // Image to tensor

  /** The tensor value of channel `c` of a byte: `data[sourceIdx] / 255`. */
  function Normalize(b: int): (v: real)
    ensures 0 <= b <= 255 ==> 0.0 <= v <= 1.0
    ensures v * 255.0 == b as real
  {
    b as real / 255.0
  }

  /**
   * Element `k` of the NCHW tensor made from a `W` by `H` RGBA buffer: `k`
   * names channel `c`, row `h` and column `w`, and the element is that
   * channel's byte of that pixel, normalized.
   */
  function TensorValue(W: nat, H: nat, bytes: seq<int>, k: int): real
    requires |bytes| == W * H * 4 && 0 <= k < 3 * (H * W)
  {
    NchwEncode(k, H, W);
    var c, p := k / (H * W), k % (H * W);
    RgbaDecode(p / W, p % W, c, H, W);
    Normalize(bytes[RgbaIndex(p / W, p % W, W, c)])
  }

  /** Tensor element `c * H * W + h * W + w` is channel `c` of pixel (h, w). */
  lemma TensorValueAt(W: nat, H: nat, bytes: seq<int>, c: int, h: int, w: int)
    requires |bytes| == W * H * 4
    requires 0 <= c < 3 && 0 <= h < H && 0 <= w < W
    ensures 0 <= NchwIndex(c, h, w, H, W) < 3 * (H * W)
    ensures 0 <= RgbaIndex(h, w, W, c) < |bytes|
    ensures TensorValue(W, H, bytes, NchwIndex(c, h, w, H, W)) == Normalize(bytes[RgbaIndex(h, w, W, c)])
  {
    NchwDecode(c, h, w, H, W);
    RgbaDecode(h, w, c, H, W);
  }

  /** The row-major NCHW traversal: the end of a row is the start of the next, the end of a channel the start of the next. */
  lemma NchwStep(c: int, h: int, H: nat, W: nat)
    ensures NchwIndex(c, h, W, H, W) == NchwIndex(c, h + 1, 0, H, W)
    ensures NchwIndex(c, H, 0, H, W) == NchwIndex(c + 1, 0, 0, H, W)
    ensures NchwIndex(3, 0, 0, H, W) == 3 * (H * W) == W * H * 3
  {
  }

  /** The tensor `preprocessImage` builds from a `W` by `H` image with byte buffer `bytes`. */
  function TensorOf(W: nat, H: nat, bytes: seq<int>): Tensor
    requires |bytes| == W * H * 4
  {
    Tensor([1, 3, H, W], seq(3 * (H * W), k requires 0 <= k < 3 * (H * W) => TensorValue(W, H, bytes, k)))
  }

  /**
   * The tensor has shape [1, 3, H, W] and `3 * H * W` elements, and the
   * element at `c * H * W + h * W + w` is byte `(h * W + w) * 4 + c` of the
   * image divided by 255, for each of the three colour channels.
   */
  lemma TensorOfAt(W: nat, H: nat, bytes: seq<int>, c: int, h: int, w: int)
    requires |bytes| == W * H * 4
    requires 0 <= c < 3 && 0 <= h < H && 0 <= w < W
    ensures TensorOf(W, H, bytes).dims == [1, 3, H, W]
    ensures |TensorOf(W, H, bytes).data| == 3 * (H * W)
    ensures 0 <= NchwIndex(c, h, w, H, W) < 3 * (H * W)
    ensures 0 <= RgbaIndex(h, w, W, c) < |bytes|
    ensures TensorOf(W, H, bytes).data[NchwIndex(c, h, w, H, W)] == Normalize(bytes[RgbaIndex(h, w, W, c)])
  {
    TensorValueAt(W, H, bytes, c, h, w);
    var k := NchwIndex(c, h, w, H, W);
    assert TensorOf(W, H, bytes).data[k] == TensorValue(W, H, bytes, k);
  }

  /**
   * Each tensor element comes from exactly one byte, and no alpha byte
   * (offset 3 of a pixel) is ever read: two distinct (c, h, w) give distinct
   * tensor positions and distinct source bytes, and the source byte is never
   * an alpha byte.
   */
  lemma {:induction false} TensorIndexInjective(H: nat, W: nat, c: int, h: int, w: int, c': int, h': int, w': int)
    requires 0 <= c < 3 && 0 <= h < H && 0 <= w < W
    requires 0 <= c' < 3 && 0 <= h' < H && 0 <= w' < W
    ensures NchwIndex(c, h, w, H, W) == NchwIndex(c', h', w', H, W) <==> (c, h, w) == (c', h', w')
    ensures RgbaIndex(h, w, W, c) == RgbaIndex(h', w', W, c') <==> (c, h, w) == (c', h', w')
    ensures RgbaIndex(h, w, W, c) % 4 != 3
  {
    NchwDecode(c, h, w, H, W);
    NchwDecode(c', h', w', H, W);
    RgbaDecode(h, w, c, H, W);
    RgbaDecode(h', w', c', H, W);
  }

  /**
   * `preprocessImage`: fills a fresh float buffer of `W * H * 3` elements,
   * channel by channel, row by row, column by column, and wraps it in a
   * tensor of shape [1, 3, H, W].
   */
  method Preprocess(image: ImageData) returns (t: Tensor)
    requires image.data.Length == image.width * image.height * 4
    ensures t == TensorOf(image.width, image.height, image.data[..])
  {
    var data, W, H := image.data, image.width, image.height;
    ghost var bytes := data[..];
    var buffer := new real[W * H * 3];
    NchwStep(0, 0, H, W);
    for c := 0 to 3
      invariant NchwIndex(c, 0, 0, H, W) <= buffer.Length
      invariant forall k :: 0 <= k < NchwIndex(c, 0, 0, H, W) ==> buffer[k] == TensorValue(W, H, bytes, k)
    {
      NchwStep(c, 0, H, W);
      for h := 0 to H
        invariant NchwIndex(c, h, 0, H, W) <= buffer.Length
        invariant forall k :: 0 <= k < NchwIndex(c, h, 0, H, W) ==> buffer[k] == TensorValue(W, H, bytes, k)
      {
        NchwStep(c, h, H, W);
        for w := 0 to W
          invariant NchwIndex(c, h, w, H, W) <= buffer.Length
          invariant forall k :: 0 <= k < NchwIndex(c, h, w, H, W) ==> buffer[k] == TensorValue(W, H, bytes, k)
        {
          var sourceIdx := (h * W + w) * 4 + c;
          var targetIdx := c * H * W + h * W + w;
          TensorValueAt(W, H, bytes, c, h, w);
          buffer[targetIdx] := data[sourceIdx] as real / 255.0;
        }
      }
    }
    assert buffer[..] == TensorOf(W, H, bytes).data;
    t := Tensor([1, 3, H, W], buffer[..]);
  }

  // ---------------------------------------------------------------------
  // Tensor to image

  /** `Math.round`: the nearest integer, halves rounded up. */
  function Round(x: real): (n: int)
    ensures x - 0.5 < n as real <= x + 0.5
  {
    (x + 0.5).Floor
  }

  /**
   * The byte stored for a tensor value `v`: `Math.max(0, Math.min(255,
   * Math.round(v * 255)))`. It is always a byte, values at or below 0 give 0,
   * values at or above 1 give 255, and in between it is the nearest byte.
   */
  function ToByte(v: real): (b: int)
    ensures 0 <= b <= 255
    ensures v <= 0.0 ==> b == 0
    ensures v >= 1.0 ==> b == 255
    ensures 0.0 <= v <= 1.0 ==> v * 255.0 - 0.5 < b as real <= v * 255.0 + 0.5
  {
    var n := Round(v * 255.0);
    if n < 0 then 0 else if n > 255 then 255 else n
  }

  /**
   * The byte stored for tensor element `k`: reading past the end of the
   * buffer gives `undefined`, the arithmetic gives NaN, and a
   * `Uint8ClampedArray` stores NaN as 0.
   */
  function OutputByte(data: seq<real>, k: int): (b: int)
    ensures 0 <= b <= 255
    ensures 0 <= k < |data| ==> b == ToByte(data[k])
    ensures !(0 <= k < |data|) ==> b == 0
  {
    if 0 <= k < |data| then ToByte(data[k]) else 0
  }

  /**
   * The (height, width) that `postprocessOutput` reads from `dims[2]` and
   * `dims[3]`, when `new ImageData(width, height)` accepts them: a missing
   * entry reads as `undefined` and a zero size is refused; a negative one
   * wraps to a size no buffer can hold.
   */
  function OutputSize(dims: seq<int>): (r: Option<(nat, nat)>)
    ensures r.Some? <==> |dims| >= 4 && Accepts(dims[3], dims[2])
    ensures r.Some? ==> r.value == (dims[2], dims[3])
  {
    if |dims| < 4 then None
    else
      var height, width := dims[2], dims[3];
      if Accepts(width, height) then Some((height, width)) else None
  }

  /**
   * Byte `k` of the `width` by `height` image made from tensor `t`: alpha is
   * 255, and colour channel `c` of pixel (y, x) comes from tensor element
   * `c * height * width + y * width + x`.
   */
  function PixelByte(t: Tensor, height: nat, width: nat, k: int): int
    requires 0 <= k < height * width * 4
  {
    RgbaEncode(k, height, width);
    var p, c := k / 4, k % 4;
    if c == 3 then 255 else OutputByte(t.data, NchwIndex(c, p / width, p % width, height, width))
  }

  /** The byte buffer `postprocessOutput` fills for a `width` by `height` output. */
  function PixelsOf(t: Tensor, height: nat, width: nat): seq<int> {
    seq(height * width * 4, k requires 0 <= k < height * width * 4 => PixelByte(t, height, width, k))
  }

  /**
   * Byte `(y * width + x) * 4 + c` of the output is 255 for alpha and the
   * clamped, rounded tensor value at `c * height * width + y * width + x`
   * for the three colour channels; every byte lies in [0, 255].
   */
  lemma PixelsOfAt(t: Tensor, height: nat, width: nat, y: int, x: int, c: int)
    requires 0 <= y < height && 0 <= x < width && 0 <= c < 4
    ensures |PixelsOf(t, height, width)| == height * width * 4
    ensures 0 <= RgbaIndex(y, x, width, c) < height * width * 4
    ensures 0 <= PixelsOf(t, height, width)[RgbaIndex(y, x, width, c)] <= 255
    ensures PixelsOf(t, height, width)[RgbaIndex(y, x, width, c)] ==
      if c == 3 then 255 else OutputByte(t.data, NchwIndex(c, y, x, height, width))
  {
    RgbaDecode(y, x, c, height, width);
    var k := RgbaIndex(y, x, width, c);
    assert PixelsOf(t, height, width)[k] == PixelByte(t, height, width, k);
  }

  /** The row-major RGBA traversal: each byte is followed by the next channel, pixel or row. */
  lemma RgbaStep(y: int, x: int, c: int, height: nat, width: nat)
    requires 0 <= c <= 3
    ensures RgbaIndex(y, x, width, c) + 1 == if c < 3 then RgbaIndex(y, x, width, c + 1) else RgbaIndex(y, x + 1, width, 0)
    ensures RgbaIndex(y, width, width, 0) == RgbaIndex(y + 1, 0, width, 0)
    ensures RgbaIndex(height, 0, width, 0) == height * width * 4
  {
  }

  /**
   * `postprocessOutput`: allocates an image of the tensor's own `dims[3]` by
   * `dims[2]` (the caller's original size plays no part) and fills it pixel
   * by pixel, three colour bytes then an opaque alpha byte. It fails when the
   * `ImageData` constructor refuses the size.
   */
  method Postprocess(outputTensor: Tensor, originalWidth: int, originalHeight: int) returns (r: Option<ImageData>)
    ensures r.None? <==> OutputSize(outputTensor.dims).None?
    ensures r.Some? ==>
      r.value.width == outputTensor.dims[3] && r.value.height == outputTensor.dims[2] &&
      r.value.data[..] == PixelsOf(outputTensor, outputTensor.dims[2], outputTensor.dims[3])
    ensures r.Some? ==> fresh(r.value) && fresh(r.value.data)
  {
    var size := OutputSize(outputTensor.dims);
    if size.None? {
      return None;
    }
    var (height, width) := size.value;
    var data := outputTensor.data;
    var imageData := new ImageData(width, height);
    var out := imageData.data;
    ghost var expected := PixelsOf(outputTensor, height, width);
    RgbaStep(0, 0, 0, height, width);
    for y := 0 to height
      invariant RgbaIndex(y, 0, width, 0) <= out.Length
      invariant forall k :: 0 <= k < RgbaIndex(y, 0, width, 0) ==> out[k] == expected[k]
    {
      for x := 0 to width
        invariant RgbaIndex(y, x, width, 0) <= out.Length
        invariant forall k :: 0 <= k < RgbaIndex(y, x, width, 0) ==> out[k] == expected[k]
      {
        var imageDataIndex := (y * width + x) * 4;
        PixelsOfAt(outputTensor, height, width, y, x, 3);
        for c := 0 to 3
          invariant forall k :: 0 <= k < imageDataIndex + c ==> out[k] == expected[k]
        {
          var tensorIndex := c * height * width + y * width + x;
          var value := OutputByte(data, tensorIndex);
          PixelsOfAt(outputTensor, height, width, y, x, c);
          out[imageDataIndex + c] := value;
        }
        out[imageDataIndex + 3] := 255;
        RgbaStep(y, x, 3, height, width);
      }
      RgbaStep(y, 0, 0, height, width);
    }
    assert out[..] == expected;
    r := Some(imageData);
  }

  // ---------------------------------------------------------------------
  // Round trip

  /** With exact arithmetic, normalizing a byte and converting it back gives the byte. */
  lemma ToByteOfNormalize(b: int)
    requires 0 <= b <= 255
    ensures ToByte(Normalize(b)) == b
  {
    assert Normalize(b) * 255.0 == b as real;
    assert Round(b as real) == b;
  }

  /**
   * Converting a `W` by `H` image to a tensor and back, with the tensor's
   * dims unchanged, keeps the size, reproduces every colour byte exactly and
   * makes every pixel opaque.
   */
  lemma {:induction false} RoundTrip(W: nat, H: nat, bytes: seq<int>)
    requires |bytes| == W * H * 4
    requires forall i :: 0 <= i < |bytes| ==> 0 <= bytes[i] <= 255
    ensures W >= 1 && H >= 1 ==> OutputSize(TensorOf(W, H, bytes).dims) == Some((H, W))
    ensures |PixelsOf(TensorOf(W, H, bytes), H, W)| == |bytes|
    ensures forall k :: 0 <= k < |bytes| ==>
      PixelsOf(TensorOf(W, H, bytes), H, W)[k] == if k % 4 == 3 then 255 else bytes[k]
  {
    var t := TensorOf(W, H, bytes);
    forall k | 0 <= k < |bytes|
      ensures PixelsOf(t, H, W)[k] == if k % 4 == 3 then 255 else bytes[k]
    {
      RgbaEncode(k, H, W);
      var p, c := k / 4, k % 4;
      var y, x := p / W, p % W;
      PixelsOfAt(t, H, W, y, x, c);
      if c < 3 {
        TensorOfAt(W, H, bytes, c, y, x);
        ToByteOfNormalize(bytes[k]);
      }
    }
  }

  /** An image that is already opaque survives the round trip unchanged. */
  lemma OpaqueRoundTrip(W: nat, H: nat, bytes: seq<int>)
    requires |bytes| == W * H * 4
    requires forall i :: 0 <= i < |bytes| ==> 0 <= bytes[i] <= 255
    requires forall i :: 0 <= i < |bytes| && i % 4 == 3 ==> bytes[i] == 255
    ensures PixelsOf(TensorOf(W, H, bytes), H, W) == bytes
  {
    RoundTrip(W, H, bytes);
  }

  // ---------------------------------------------------------------------
  // Images as values

  /** The value of an `ImageData`: its size and the contents of its byte buffer. */
  datatype Picture = Picture(width: nat, height: nat, pixels: seq<int>)

  /** `image` currently holds the picture `p`. */
  ghost predicate Shows(image: ImageData, p: Picture)
    reads image.data
  {
    image.width == p.width && image.height == p.height && image.data[..] == p.pixels
  }

  /** The picture `postprocessOutput` makes of `t`, or `None` when the `ImageData` constructor refuses its size. */
  function Convert(t: Tensor): (r: Option<Picture>)
    ensures r.Some? <==> OutputSize(t.dims).Some?
    ensures r.Some? ==> r.value.width == t.dims[3] && r.value.height == t.dims[2]
  {
    match OutputSize(t.dims)
    case None => None
    case Some((height, width)) => Some(Picture(width, height, PixelsOf(t, height, width)))
  }

  /** Every picture `postprocessOutput` makes is a well-formed, opaque RGBA image of bytes. */
  lemma ConvertWellFormed(t: Tensor)
    requires Convert(t).Some?
    ensures var p := Convert(t).value;
      |p.pixels| == p.width * p.height * 4 &&
      forall k :: 0 <= k < |p.pixels| ==> 0 <= p.pixels[k] <= 255 && (k % 4 == 3 ==> p.pixels[k] == 255)
  {
    var p := Convert(t).value;
    var H, W := p.height, p.width;
    assert |p.pixels| == H * W * 4;
    forall k | 0 <= k < |p.pixels|
      ensures 0 <= p.pixels[k] <= 255 && (k % 4 == 3 ==> p.pixels[k] == 255)
    {
      RgbaEncode(k, H, W);
      PixelsOfAt(t, H, W, (k / 4) / W, (k / 4) % W, k % 4);
    }
  }
}
