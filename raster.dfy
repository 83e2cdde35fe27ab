/** The rasteriser of grapher.py (draw_points): every point is mapped to one
    pixel of a 4000 x 4000 RGB image that starts out white, and that pixel is
    painted black. */
module Raster {
  import opened Points

  /** xy_size: the canvas is Size pixels wide and Size pixels high. */
  const Size: nat := 4000
  /** xy_size // 2: the pixel the origin maps to, on both axes. */
  const Half: nat := Size / 2
  /** (xy_size // 2) // 2: pixels per unit of the complex plane. */
  const Scale: nat := (Size / 2) / 2

  // ---------------------------------------------------------------------
  // Coordinates

  /** Python's int() on a float: truncation toward zero, which is not floor
      for negative numbers. */
  function Trunc(x: real): (t: int)
    ensures x >= 0.0 ==> 0 <= t && t as real <= x < t as real + 1.0
    ensures x < 0.0 ==> t <= 0 && t as real - 1.0 < x <= t as real
  {
    if x >= 0.0 then x.Floor else -((-x).Floor)
  }

  /** Trunc and floor part ways exactly on the negative non-integers. */
  lemma TruncNotFloor(x: real)
    ensures Trunc(x) == x.Floor <==> (x >= 0.0 || x == x.Floor as real)
    ensures x < 0.0 && x != x.Floor as real ==> Trunc(x) == x.Floor + 1
  {
  }

  /** int(v * ((xy_size // 2) // 2)) + (xy_size // 2): the column of a real
      part, or the row of an imaginary part. Its distance from the centre
      Half is v * Scale truncated toward zero: on the same side as v, and
      less than one pixel closer to the centre than v * Scale. */
  function Coordinate(v: real): (c: int)
    ensures v >= 0.0 ==> Half <= c && (c - Half) as real <= v * Scale as real < (c - Half + 1) as real
    ensures v < 0.0 ==> c <= Half && (c - Half - 1) as real < v * Scale as real <= (c - Half) as real
  {
    Trunc(v * Scale as real) + Half
  }

  predicate OnCanvas(xy: (int, int)) {
    0 <= xy.0 < Size && 0 <= xy.1 < Size
  }

  /** A coordinate lands on the canvas exactly when the value lies in the
      half-open band (-2.001, 2.0): truncation toward zero widens the band on
      the negative side only, and 2.0 itself maps to the column just past
      the right edge. */
  lemma CoordinateOnCanvas(v: real)
    ensures 0 <= Coordinate(v) < Size <==> -2.001 < v < 2.0
  {
    var x := v * Scale as real;
    assert Scale == 1000 && Half == 2000;
    if x >= 0.0 {
      assert Trunc(x) < 2000 <==> x < 2000.0;
    } else {
      assert Trunc(x) >= -2000 <==> x > -2001.0;
    }
  }

  /** The pixel (column, row) that putpixel receives for a point. It lies on
      the canvas exactly when both parts of the point lie in (-2.001, 2.0). */
  function PixelOf(p: Point): (xy: (int, int))
    ensures OnCanvas(xy) <==> -2.001 < p.re < 2.0 && -2.001 < p.im < 2.0
  {
    CoordinateOnCanvas(p.re);
    CoordinateOnCanvas(p.im);
    (Coordinate(p.re), Coordinate(p.im))
  }

  /** 0+0i is drawn at the centre pixel (2000, 2000). */
  lemma OriginAtCentre()
    ensures PixelOf(Point(0.0, 0.0)) == (2000, 2000)
  {
  }

  /** Every value within a thousandth of 0, on either side, maps to the centre
      column (or row): int() truncates toward zero. */
  lemma NearZeroAtCentre(v: real)
    requires -1.0 < v * 1000.0 < 1.0
    ensures Coordinate(v) == 2000
  {
  }

  // ---------------------------------------------------------------------
  // The image

  /** A byte of a colour channel. */
  type Byte = n: int | 0 <= n < 256

  datatype Color = RGB(r: Byte, g: Byte, b: Byte)

  const White: Color := RGB(255, 255, 255)
  const Black: Color := RGB(0, 0, 0)

  /** An RGB image whose pixels are updated in place; pixels[x, y] is the
      pixel in column x and row y, as putpixel((x, y), ...) addresses it. */
  class Image {
    const width: nat
    const height: nat
    const pixels: array2<Color>

    ghost predicate Valid()
      reads this
    {
      pixels.Length0 == width && pixels.Length1 == height
    }

    /** Image.new(mode="RGB", size=size, color=color) */
    constructor New(size: (nat, nat), color: Color)
      ensures Valid() && width == size.0 && height == size.1
      ensures fresh(pixels)
      ensures forall x, y :: 0 <= x < width && 0 <= y < height ==> pixels[x, y] == color
    {
      width := size.0;
      height := size.1;
      pixels := new Color[size.0, size.1]((x, y) => color);
    }

    /** putpixel(xy, color): the one pixel at xy takes the colour, every other
        pixel keeps its own. */
    method PutPixel(xy: (int, int), color: Color)
      requires Valid() && 0 <= xy.0 < width && 0 <= xy.1 < height
      modifies pixels
      ensures pixels[xy.0, xy.1] == color
      ensures forall x, y :: 0 <= x < width && 0 <= y < height && (x, y) != xy ==>
                pixels[x, y] == old(pixels[x, y])
    {
      pixels[xy.0, xy.1] := color;
    }
  }

  // ---------------------------------------------------------------------
  // draw_points

  /** The pixels the points are drawn at. */
  function PixelSet(points: seq<Point>): set<(int, int)> {
    set k | 0 <= k < |points| :: PixelOf(points[k])
  }

  /** The first loop of draw_points: the real parts and the imaginary parts
      collected into two lists, which zip() later pairs up again. */
  method SplitComponents(points: seq<Point>) returns (xs: seq<real>, ys: seq<real>)
    ensures |xs| == |points| && |ys| == |points|
    ensures forall k :: 0 <= k < |points| ==> Point(xs[k], ys[k]) == points[k]
  {
    xs, ys := [], [];
    var k := 0;
    while k < |points|
      invariant 0 <= k <= |points|
      invariant |xs| == k && |ys| == k
      invariant forall j :: 0 <= j < k ==> Point(xs[j], ys[j]) == points[j]
    {
      xs := xs + [points[k].re];
      ys := ys + [points[k].im];
      k := k + 1;
    }
  }

  /** draw_points without its final im.save(): a white Size x Size image in
      which exactly the pixels of the points are black. Points must map onto
      the canvas; draw_points checks nothing there. */
  method DrawPoints(points: seq<Point>) returns (im: Image)
    requires forall k :: 0 <= k < |points| ==> OnCanvas(PixelOf(points[k]))
    ensures fresh(im) && fresh(im.pixels) && im.Valid() && im.width == Size && im.height == Size
    ensures forall x, y :: 0 <= x < Size && 0 <= y < Size ==>
              im.pixels[x, y] == if (x, y) in PixelSet(points) then Black else White
  {
    var xs, ys := SplitComponents(points);
    im := new Image.New((Size, Size), White);
    var k := 0;
    while k < |xs|
      invariant 0 <= k <= |xs|
      invariant im.Valid() && im.width == Size && im.height == Size
      invariant forall x, y :: 0 <= x < Size && 0 <= y < Size ==>
                  im.pixels[x, y] == if (x, y) in PixelSet(points[..k]) then Black else White
    {
      assert PixelOf(points[k]) == (Coordinate(xs[k]), Coordinate(ys[k]));
      im.PutPixel((Coordinate(xs[k]), Coordinate(ys[k])), Black);
      PixelSetSnoc(points, k);
      k := k + 1;
    }
    assert points[..k] == points;
  }

  /** One step of the painting loop adds the pixel of the current point. */
  lemma PixelSetSnoc(points: seq<Point>, k: nat)
    requires k < |points|
    ensures PixelSet(points[..k + 1]) == PixelSet(points[..k]) + {PixelOf(points[k])}
  {
  }

  // ---------------------------------------------------------------------
  // Properties of the drawn image

  /** The image depends only on which points occur, not on their order or
      how often each occurs: painting black twice paints black once. */
  lemma PixelSetSameElements(a: seq<Point>, b: seq<Point>)
    requires forall p :: p in a <==> p in b
    ensures PixelSet(a) == PixelSet(b)
  {
    forall xy | xy in PixelSet(a) ensures xy in PixelSet(b) {
      var j :| 0 <= j < |a| && PixelOf(a[j]) == xy;
      assert a[j] in b;
      var i :| 0 <= i < |b| && b[i] == a[j];
    }
    forall xy | xy in PixelSet(b) ensures xy in PixelSet(a) {
      var j :| 0 <= j < |b| && PixelOf(b[j]) == xy;
      assert b[j] in a;
      var i :| 0 <= i < |a| && a[i] == b[j];
    }
  }

  /** Drawing a point that is already in the list changes nothing. */
  lemma PixelSetRepeat(points: seq<Point>, p: Point)
    requires p in points
    ensures PixelSet(points + [p]) == PixelSet(points)
  {
    PixelSetSameElements(points + [p], points);
  }

  /** No points: nothing is black, so the image stays all white. */
  lemma PixelSetEmpty()
    ensures PixelSet([]) == {}
  {
  }

  /** One point: exactly its pixel is black. */
  lemma PixelSetSingle(p: Point)
    ensures PixelSet([p]) == {PixelOf(p)}
  {
    assert [p][0] == p;
  }
}
