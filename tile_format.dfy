/**
 * Loading a block tile sheet: the image must be a horizontal row of
 * power-of-two sized squares, and it is cut into one frame per square,
 * left to right.  Reading the image file and the pixel format conversion of
 * the drawing library are outside the model: the decoded image is a
 * parameter, and pixels are compared as words.
 */
module Tiles {
  import opened Wrappers

  /** An ARGB pixel. */
  type Pixel = bv32

  /** The pixel of a freshly created ARGB image. */
  const Transparent: Pixel := 0

  /** A grid of pixels, row by row: pixel (x, y) is rows[y][x]. */
  datatype Image = Image(width: nat, height: nat, rows: seq<seq<Pixel>>)

  predicate WellFormed(img: Image)
  {
    |img.rows| == img.height && forall y :: 0 <= y < img.height ==> |img.rows[y]| == img.width
  }

  function PixelAt(img: Image, x: nat, y: nat): Pixel
    requires WellFormed(img) && x < img.width && y < img.height
  {
    img.rows[y][x]
  }

  /** A new width × height image, every pixel transparent. */
  function Blank(width: nat, height: nat): (img: Image)
    ensures WellFormed(img) && img.width == width && img.height == height
    ensures forall x: nat, y: nat :: x < width && y < height ==> PixelAt(img, x, y) == Transparent
  {
    Image(width, height, seq(height, _ => seq(width, _ => Transparent)))
  }

  /**
   * Drawing `src` onto `dest` with its top-left corner at (dx, dy): a
   * destination pixel covered by the source takes the source pixel, the
   * others keep theirs.
   */
  function DrawImage(dest: Image, src: Image, dx: int, dy: int): (r: Image)
    requires WellFormed(dest) && WellFormed(src)
    ensures WellFormed(r) && r.width == dest.width && r.height == dest.height
    ensures forall x: nat, y: nat :: x < dest.width && y < dest.height ==>
      PixelAt(r, x, y) ==
        if 0 <= x - dx < src.width && 0 <= y - dy < src.height then PixelAt(src, x - dx, y - dy)
        else PixelAt(dest, x, y)
  {
    Image(dest.width, dest.height,
      seq(dest.height, y requires 0 <= y < dest.height =>
        seq(dest.width, x requires 0 <= x < dest.width =>
          if 0 <= x - dx < src.width && 0 <= y - dy < src.height then src.rows[y - dy][x - dx]
          else dest.rows[y][x])))
  }

  function Pow2(k: nat): (p: nat)
    ensures p >= 1
  {
    if k == 0 then 1 else 2 * Pow2(k - 1)
  }

  /** Whether `n` is a power of two, by halving. */
  function IsPowerOfTwo(n: int): (r: bool)
    ensures r ==> n > 0
    decreases if n > 0 then n else 0
  {
    n == 1 || (n > 1 && n % 2 == 0 && IsPowerOfTwo(n / 2))
  }

  /** The halving test accepts exactly the powers of two. */
  lemma {:induction false} PowerOfTwoIff(n: int)
    ensures IsPowerOfTwo(n) <==> exists k: nat :: Pow2(k) == n
    decreases if n > 0 then n else 0
  {
    if IsPowerOfTwo(n) {
      if n == 1 {
        assert Pow2(0) == n;
      } else {
        PowerOfTwoIff(n / 2);
        var k: nat :| Pow2(k) == n / 2;
        assert Pow2(k + 1) == n;
      }
    } else if exists k: nat :: Pow2(k) == n {
      var k: nat :| Pow2(k) == n;
      if k > 0 {
        assert n / 2 == Pow2(k - 1);
        PowerOfTwoIff(n / 2);
        assert false;
      }
    }
  }

  /**
   * The dimension check: height a power of two, width a whole, non-zero
   * number of heights.  The power-of-two test comes first, so the
   * remainder is never taken by a zero height.
   */
  function IsTileSheet(width: nat, height: nat): (ok: bool)
    ensures ok ==> IsStrip(width, height)
  {
    IsPowerOfTwo(height) && width % height == 0 && width != 0
  }

  /** A non-empty horizontal row of whole height × height squares. */
  predicate IsStrip(width: nat, height: nat)
  {
    height > 0 && width > 0 && width % height == 0
  }

  /** The number of frames of a valid sheet: one per height-wide square. */
  function FrameCount(width: nat, height: nat): (n: nat)
    requires IsStrip(width, height)
    ensures n >= 1 && n * height == width
  {
    assert width == height * (width / height);
    width / height
  }

  /** The h × h square at column offset h·i of `img`, h its height. */
  function Frame(img: Image, i: nat): (f: Image)
    requires WellFormed(img) && IsStrip(img.width, img.height)
    requires i < FrameCount(img.width, img.height)
    ensures WellFormed(f) && f.width == img.height && f.height == img.height
    ensures img.height * i + img.height <= img.width
    ensures forall x: nat, y: nat :: x < f.width && y < f.height ==>
      PixelAt(f, x, y) == PixelAt(img, x + img.height * i, y)
  {
    var h := img.height;
    FrameInside(img.width, h, i);
    Image(h, h, seq(h, y requires 0 <= y < h => img.rows[y][h * i .. h * i + h]))
  }

  lemma FrameInside(width: nat, height: nat, i: nat)
    requires IsStrip(width, height) && i < FrameCount(width, height)
    ensures height * i + height <= width
  {
    var n := FrameCount(width, height);
    assert height * (i + 1) <= height * n;
  }

  /**
   * The frames cover the sheet's columns left to right without overlap:
   * pixel (x, y) of the sheet is pixel (x mod h, y) of frame x div h.
   */
  lemma FramesTileSheet(img: Image, x: nat, y: nat)
    requires WellFormed(img) && IsStrip(img.width, img.height)
    requires x < img.width && y < img.height
    ensures x / img.height < FrameCount(img.width, img.height)
    ensures PixelAt(Frame(img, x / img.height), x % img.height, y) == PixelAt(img, x, y)
  {
    ColumnSplit(x, img.height, FrameCount(img.width, img.height));
  }

  /** A column left of n·h lies in square x div h < n, at offset x mod h. */
  lemma ColumnSplit(x: nat, h: nat, n: nat)
    requires h > 0 && x < n * h
    ensures x / h < n && x % h < h && h * (x / h) + x % h == x
  {
    var q, r := x / h, x % h;
    assert h * q + r == x;
  }

  /** Drawing the sheet at column offset -h·i onto a blank h × h image gives frame i. */
  lemma DrawnFrame(img: Image, i: nat)
    requires WellFormed(img) && IsStrip(img.width, img.height)
    requires i < FrameCount(img.width, img.height)
    ensures DrawImage(Blank(img.height, img.height), img, -((img.height * i) as int), 0) == Frame(img, i)
  {
    var h := img.height;
    var drawn := DrawImage(Blank(h, h), img, -((h * i) as int), 0);
    var f := Frame(img, i);
    FrameInside(img.width, h, i);
    var off := h * i;
    forall y | 0 <= y < h
      ensures drawn.rows[y] == f.rows[y]
    {
      forall x | 0 <= x < h
        ensures drawn.rows[y][x] == f.rows[y][x]
      {
        assert x - -off == x + off < img.width;
        assert PixelAt(drawn, x, y) == PixelAt(img, x + off, y);
        assert PixelAt(f, x, y) == PixelAt(img, x + off, y);
      }
    }
    assert drawn.rows == f.rows;
  }

  datatype TileData = TileData(frames: seq<Image>, auto: bool)

  datatype LoadError = InvalidTile   // IOException: not a row of power-of-two squares

  /**
   * load: `path` is the first file's path within its module, as the list
   * of its directory names, and `image` its decoded image.  Rejects an
   * image failing the dimension check; otherwise one frame per square,
   * frame i drawn from the sheet at column offset -h·i, and the auto flag
   * set when one of the directories is named exactly "auto".
   */
  method Load(path: seq<string>, image: Image) returns (r: Result<TileData, LoadError>)
    requires WellFormed(image)
    ensures r.Err? <==> !IsTileSheet(image.width, image.height)
    ensures r.Ok? ==> (r.value.auto <==> "auto" in path)
    ensures r.Ok? ==> |r.value.frames| == FrameCount(image.width, image.height)
    ensures r.Ok? ==> forall i :: 0 <= i < |r.value.frames| ==> r.value.frames[i] == Frame(image, i)
  {
    var auto := "auto" in path;
    var w, h := image.width, image.height;
    if !IsPowerOfTwo(h) || w % h != 0 || w == 0 {
      return Err(InvalidTile);
    }
    var frames := new Image[w / h];
    for i := 0 to frames.Length
      invariant forall j :: 0 <= j < i ==> frames[j] == Frame(image, j)
    {
      frames[i] := Blank(h, h);
      frames[i] := DrawImage(frames[i], image, -((h * i) as int), 0);
      DrawnFrame(image, i);
    }
    return Ok(TileData(frames[..], auto));
  }
}
