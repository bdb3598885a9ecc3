/**
 * The pixel compositor: RGBA image data laid out row-major, four bytes per
 * pixel, and the two primitives every drawing pass uses to read a texel and
 * to write an output pixel.
 */
module Pixels {

  /** One element of a clamped byte array (the storage of browser image data). */
  type Byte = x: int | 0 <= x < 256

  const Opaque: Byte := 255

  datatype Color = Color(r: Byte, g: Byte, b: Byte, a: Byte)
  {
    /** The k-th byte of this colour in storage order r, g, b, a. */
    function Component(k: int): Byte
    {
      if k == 0 then r else if k == 1 then g else if k == 2 then b else a
    }
  }

  /** A decoded raster: its pixel dimensions and its RGBA bytes. */
  datatype ImageData = ImageData(width: int, height: int, data: seq<Byte>)
  {
    /** A frame as the asset pipeline produces it: at least one pixel, exactly four bytes per pixel. */
    ghost predicate WellFormed()
    {
      width >= 1 && height >= 1 && |data| == width * height * 4
    }
  }

  /** Byte offset of pixel (x, y) in a row-major buffer `w` pixels wide. */
  function Idx(w: int, x: int, y: int): int
  {
    (y * w + x) * 4
  }

  function Abs(v: real): real
  {
    if v < 0.0 then -v else v
  }

  /** The four bytes at texel (tx, ty), read without any coordinate conversion. */
  function TexelAt(img: ImageData, tx: int, ty: int): (c: Color)
    requires 0 <= Idx(img.width, tx, ty) && Idx(img.width, tx, ty) + 3 < |img.data|
    ensures forall k :: 0 <= k < 4 ==> c.Component(k) == img.data[Idx(img.width, tx, ty) + k]
  {
    var i := Idx(img.width, tx, ty);
    Color(img.data[i], img.data[i + 1], img.data[i + 2], img.data[i + 3])
  }

  /** Whether the texel read at (x, y) lies within the image's bytes. */
  ghost predicate ReadableAt(img: ImageData, x: real, y: real)
  {
    var i := Idx(img.width, Abs(x).Floor, Abs(y).Floor);
    0 <= i && i + 3 < |img.data|
  }

  /**
   * The texel sampled at (x, y): each coordinate loses its sign, then is
   * floored, so negative coordinates reflect about the origin.
   */
  function ColorAt(img: ImageData, x: real, y: real): (c: Color)
    requires ReadableAt(img, x, y)
    ensures c == TexelAt(img, Abs(x).Floor, Abs(y).Floor)
    ensures x >= 0.0 && y >= 0.0 ==> c == TexelAt(img, x.Floor, y.Floor)
  {
    TexelAt(img, Abs(x).Floor, Abs(y).Floor)
  }

  /** Sampling at integer (x, y) is the same as sampling at (|x|, |y|): negative space mirrors positive space. */
  lemma ColorAtReflects(img: ImageData, x: int, y: int)
    requires ReadableAt(img, x as real, y as real)
    ensures ReadableAt(img, (-x) as real, y as real) && ReadableAt(img, x as real, (-y) as real)
    ensures ColorAt(img, x as real, y as real) == ColorAt(img, (-x) as real, y as real)
    ensures ColorAt(img, x as real, y as real) == ColorAt(img, x as real, (-y) as real)
    ensures ColorAt(img, x as real, y as real) == TexelAt(img, if x < 0 then -x else x, if y < 0 then -y else y)
  {
  }

  /** In a well-formed image every texel whose floored coordinates fall inside the image can be read. */
  lemma ReadableWithin(img: ImageData, x: real, y: real)
    requires img.WellFormed()
    requires Abs(x).Floor < img.width && Abs(y).Floor < img.height
    ensures ReadableAt(img, x, y)
  {
    IdxInRange(img.width, img.height, Abs(x).Floor, Abs(y).Floor, 3);
  }

  /** At integer coordinates inside a well-formed image, sampling reads exactly that texel. */
  lemma SampleInside(img: ImageData, x: int, y: int)
    requires img.WellFormed() && 0 <= x < img.width && 0 <= y < img.height
    ensures ReadableAt(img, x as real, y as real)
    ensures ColorAt(img, x as real, y as real) == TexelAt(img, x, y)
  {
    assert Abs(x as real).Floor == x && Abs(y as real).Floor == y;
    ReadableWithin(img, x as real, y as real);
  }

  /** A store into a clamped byte array: an index outside the array is ignored. */
  function StoreByte(s: seq<Byte>, i: int, v: Byte): (r: seq<Byte>)
    ensures |r| == |s|
    ensures forall j :: 0 <= j < |s| ==> r[j] == (if j == i then v else s[j])
  {
    if 0 <= i < |s| then s[i := v] else s
  }

  /** The bytes after writing colour c at pixel (x, y) of a buffer `w` pixels wide. */
  function WritePixel(s: seq<Byte>, w: int, x: int, y: int, c: Color): (r: seq<Byte>)
    ensures |r| == |s|
  {
    var i := Idx(w, x, y);
    StoreByte(StoreByte(StoreByte(StoreByte(s, i, c.r), i + 1, c.g), i + 2, c.b), i + 3, c.a)
  }

  /** A pixel write changes exactly the bytes of that pixel that lie inside the buffer, and nothing else. */
  lemma WritePixelBytes(s: seq<Byte>, w: int, x: int, y: int, c: Color, j: int)
    requires 0 <= j < |s|
    ensures var i := Idx(w, x, y);
            WritePixel(s, w, x, y, c)[j] == if i <= j < i + 4 then c.Component(j - i) else s[j]
  {
  }

  /** Reading back a pixel just written, inside the buffer, gives the colour written. */
  lemma WriteThenRead(s: seq<Byte>, w: int, h: int, x: int, y: int, c: Color)
    requires |s| == w * h * 4
    requires 0 <= x < w && 0 <= y < h
    ensures ReadableAt(ImageData(w, h, WritePixel(s, w, x, y, c)), x as real, y as real)
    ensures ColorAt(ImageData(w, h, WritePixel(s, w, x, y, c)), x as real, y as real) == c
  {
    IdxInRange(w, h, x, y, 3);
    var i := Idx(w, x, y);
    var r := WritePixel(s, w, x, y, c);
    assert (x as real).Floor == x && (y as real).Floor == y;
    forall k | 0 <= k < 4 ensures r[i + k] == c.Component(k) {
      WritePixelBytes(s, w, x, y, c, i + k);
    }
  }

  /** Every byte of an in-range pixel lies inside a `w` by `h` buffer. */
  lemma IdxInRange(w: int, h: int, x: int, y: int, k: int)
    requires 0 <= x < w && 0 <= y < h && 0 <= k < 4
    ensures 0 <= Idx(w, x, y) && Idx(w, x, y) + k < w * h * 4
  {
    assert y * w + x < (y + 1) * w;
    assert (y + 1) * w <= h * w by {
      MulMonotone(y + 1, h, w);
    }
  }

  lemma MulMonotone(a: int, b: int, c: int)
    requires a <= b && 0 <= c
    ensures a * c <= b * c
  {
  }

  /** Scaling an offset inside [0, n) to a dimension lands inside [0, dim). */
  lemma TexelBound(r: int, n: int, dim: int)
    requires 0 <= r < n && dim >= 0
    ensures 0 <= r * dim / n && (dim > 0 ==> r * dim / n < dim)
  {
    assert r * dim <= (n - 1) * dim by { MulMonotone(r, n - 1, dim); }
    assert r * dim < n * dim || dim == 0;
    if dim > 0 && r * dim / n >= dim {
      assert (r * dim / n) * n >= dim * n by { MulMonotone(dim, r * dim / n, n); }
      assert false;
    }
  }

  /** The floor of an integer ratio is the integer quotient, for a positive divisor. */
  lemma RealFloorDiv(a: int, b: int)
    requires b > 0
    ensures ((a as real) / (b as real)).Floor == a / b
  {
    var q, r := a / b, a % b;
    assert (a as real) / (b as real) == q as real + (r as real) / (b as real);
    assert 0.0 <= (r as real) / (b as real) < 1.0;
  }

  /** Distinct in-range pixels occupy disjoint bytes. */
  lemma IdxDistinct(w: int, x: int, y: int, k: int, qx: int, qy: int, l: int)
    requires 0 <= x < w && 0 <= qx < w && 0 <= y && 0 <= qy
    requires 0 <= k < 4 && 0 <= l < 4
    requires (x, y) != (qx, qy)
    ensures Idx(w, x, y) + k != Idx(w, qx, qy) + l
  {
    var p, q := y * w + x, qy * w + qx;
    if y < qy {
      MulMonotone(y + 1, qy, w);
      assert p < q;
    } else if qy < y {
      MulMonotone(qy + 1, y, w);
      assert q < p;
    } else {
      assert p != q;
    }
  }

  /** The effect of a pixel write seen pixel by pixel: only pixel (qx, qy) takes the new colour. */
  lemma WritePixelAt(s: seq<Byte>, w: int, h: int, qx: int, qy: int, c: Color, x: int, y: int, k: int)
    requires |s| == w * h * 4
    requires 0 <= qx < w && 0 <= qy < h
    requires 0 <= x < w && 0 <= y < h && 0 <= k < 4
    ensures 0 <= Idx(w, x, y) + k < |s|
    ensures WritePixel(s, w, qx, qy, c)[Idx(w, x, y) + k]
         == if (x, y) == (qx, qy) then c.Component(k) else s[Idx(w, x, y) + k]
  {
    IdxInRange(w, h, x, y, k);
    var j, i := Idx(w, x, y) + k, Idx(w, qx, qy);
    WritePixelBytes(s, w, qx, qy, c, j);
    if (x, y) != (qx, qy) {
      IdxDistinct(w, x, y, k, qx, qy, 0);
      IdxDistinct(w, x, y, k, qx, qy, 1);
      IdxDistinct(w, x, y, k, qx, qy, 2);
      IdxDistinct(w, x, y, k, qx, qy, 3);
      assert !(i <= j < i + 4);
    } else {
      assert j - i == k;
    }
  }

  /**
   * The image data a camera draws into: the fixed-size output buffer of one
   * frame, updated in place by every drawing pass.
   */
  class ImageBuffer {
    const width: int
    const height: int
    const data: array<Byte>

    ghost predicate Valid()
    {
      width >= 0 && height >= 0 && data.Length == width * height * 4
    }

    constructor (w: int, h: int)
      requires w >= 0 && h >= 0
      ensures Valid() && width == w && height == h && fresh(data)
      ensures forall i :: 0 <= i < data.Length ==> data[i] == 0
    {
      width, height := w, h;
      data := new Byte[w * h * 4](_ => 0);
    }

    /**
     * Writes colour c at pixel (x, y); each of the four stores is dropped
     * when its index falls outside the buffer, as a clamped array does.
     */
    method SetColor(x: int, y: int, c: Color)
      modifies data
      ensures data[..] == WritePixel(old(data[..]), width, x, y, c)
    {
      var index := Idx(width, x, y);
      ghost var s0 := data[..];
      if 0 <= index < data.Length { data[index] := c.r; }
      assert data[..] == StoreByte(s0, index, c.r);
      ghost var s1 := data[..];
      if 0 <= index + 1 < data.Length { data[index + 1] := c.g; }
      assert data[..] == StoreByte(s1, index + 1, c.g);
      ghost var s2 := data[..];
      if 0 <= index + 2 < data.Length { data[index + 2] := c.b; }
      assert data[..] == StoreByte(s2, index + 2, c.b);
      ghost var s3 := data[..];
      if 0 <= index + 3 < data.Length { data[index + 3] := c.a; }
      assert data[..] == StoreByte(s3, index + 3, c.a);
    }
  }
}
