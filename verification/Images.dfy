/** Turning an image by its EXIF orientation, and the size it is scaled down to.  Pixels are indexed by column
    and row, and scale factors are real numbers. */
module Images {
  import opened Wrappers

  const MAX_DIMENSION: nat := 1024

  // ---------------------------------------------------------------- orientation

  /** Whether width and height change places. */
  predicate Turns(o: int) { 5 <= o <= 8 }

  function Size(o: int, width: nat, height: nat): (nat, nat) { if Turns(o) then (height, width) else (width, height) }

  /** Where the pixel at column `x` and row `y` of a `width` by `height` image goes.  Orientations 5 and 7 go
      the way of 8 and 6. */
  function Target(o: int, width: nat, height: nat, x: int, y: int): (int, int) {
    match o
    case 2 => (width - 1 - x, y)
    case 3 => (width - 1 - x, height - 1 - y)
    case 4 => (x, height - 1 - y)
    case 5 => (y, width - 1 - x)
    case 6 => (height - 1 - y, x)
    case 7 => (height - 1 - y, x)
    case 8 => (y, width - 1 - x)
    case _ => (x, y)
  }

  predicate InRect(size: (nat, nat), p: (int, int)) { 0 <= p.0 < size.0 && 0 <= p.1 < size.1 }

  /** The pixel has arrived at its place in `b`. */
  ghost predicate MovedTo<Color>(o: int, a: array2<Color>, b: array2<Color>, x: int, y: int)
    requires 0 <= x < a.Length0 && 0 <= y < a.Length1
    reads a, b
  {
    var t := Target(o, a.Length0, a.Length1, x, y);
    InRect((b.Length0, b.Length1), t) && b[t.0, t.1] == a[x, y]
  }

  /** `b` is `a` turned by orientation `o`. */
  ghost predicate IsOriented<Color>(o: int, a: array2<Color>, b: array2<Color>)
    reads a, b
  {
    && (b.Length0, b.Length1) == Size(o, a.Length0, a.Length1)
    && forall x, y | 0 <= x < a.Length0 && 0 <= y < a.Length1 :: MovedTo(o, a, b, x, y)
  }

  /** The pixel that goes to column `x` and row `y`. */
  function Source(o: int, width: nat, height: nat, x: int, y: int): (int, int) {
    match o
    case 2 => (width - 1 - x, y)
    case 3 => (width - 1 - x, height - 1 - y)
    case 4 => (x, height - 1 - y)
    case 5 => (width - 1 - y, x)
    case 6 => (y, height - 1 - x)
    case 7 => (y, height - 1 - x)
    case 8 => (width - 1 - y, x)
    case _ => (x, y)
  }

  /** For every size, each place of the turned image comes from exactly one pixel. */
  lemma TargetIsBijection(o: int, width: nat, height: nat, x: int, y: int)
    ensures var t := Target(o, width, height, x, y); Source(o, width, height, t.0, t.1) == (x, y)
    ensures var f := Source(o, width, height, x, y); Target(o, width, height, f.0, f.1) == (x, y)
    ensures InRect((width, height), (x, y)) <==> InRect(Size(o, width, height), Target(o, width, height, x, y))
  {
  }

  lemma TargetsDiffer(o: int, width: nat, height: nat, x: int, y: int, i: int, j: int)
    requires (i, j) != (x, y)
    ensures Target(o, width, height, i, j) != Target(o, width, height, x, y)
  {
    TargetIsBijection(o, width, height, x, y);
    TargetIsBijection(o, width, height, i, j);
  }

  /** One step of the loops leaves what was moved before in its place. */
  method MovePixel<Color>(img: array2<Color>, r: array2<Color>, o: int, x: nat, y: nat)
    requires x < img.Length0 && y < img.Length1 && r != img
    requires (r.Length0, r.Length1) == Size(o, img.Length0, img.Length1)
    modifies r
    ensures MovedTo(o, img, r, x, y)
    ensures forall i, j | 0 <= i < img.Length0 && 0 <= j < img.Length1 && old(MovedTo(o, img, r, i, j)) ::
              MovedTo(o, img, r, i, j)
  {
    TargetIsBijection(o, img.Length0, img.Length1, x, y);
    var t := Target(o, img.Length0, img.Length1, x, y);
    r[t.0, t.1] := img[x, y];
    forall i, j | 0 <= i < img.Length0 && 0 <= j < img.Length1 && old(MovedTo(o, img, r, i, j))
      ensures MovedTo(o, img, r, i, j)
    {
      if (i, j) != (x, y) { TargetsDiffer(o, img.Length0, img.Length1, x, y, i, j); }
    }
  }

  method CorrectImageOrientation<Color(0)>(img: array2<Color>, orientation: int) returns (r: array2<Color>)
    ensures IsOriented(orientation, img, r)
    ensures if 2 <= orientation <= 8 then fresh(r) else r == img
  {
    if orientation < 2 || orientation > 8 { return img; }
    var width, height := img.Length0, img.Length1;
    var size := Size(orientation, width, height);
    r := new Color[size.0, size.1];
    for y := 0 to height
      invariant forall i, j | 0 <= i < width && 0 <= j < y :: MovedTo(orientation, img, r, i, j)
    {
      for x := 0 to width
        invariant forall i, j | 0 <= i < width && 0 <= j < y :: MovedTo(orientation, img, r, i, j)
        invariant forall i | 0 <= i < x :: MovedTo(orientation, img, r, i, y)
      {
        MovePixel(img, r, orientation, x, y);
      }
    }
  }

  predicate AmountsAt(first: int, second: int, both: int, width: nat, height: nat, x: int, y: int) {
    var size, t := Size(first, width, height), Target(first, width, height, x, y);
    && Size(second, size.0, size.1) == Size(both, width, height)
    && Target(second, size.0, size.1, t.0, t.1) == Target(both, width, height, x, y)
  }

  /** Turning by `first` and then by `second` comes to the same as turning by `both`. */
  ghost predicate Amounts(first: int, second: int, both: int) {
    forall width, height, x, y :: AmountsAt(first, second, both, width, height, x, y)
  }

  lemma TurnTwice<Color>(first: int, second: int, both: int, a: array2<Color>, b: array2<Color>, c: array2<Color>)
    requires IsOriented(first, a, b) && IsOriented(second, b, c) && Amounts(first, second, both)
    ensures IsOriented(both, a, c)
  {
    assert AmountsAt(first, second, both, a.Length0, a.Length1, 0, 0);
    var w, h := a.Length0, a.Length1;
    forall x, y | 0 <= x < w && 0 <= y < h
      ensures MovedTo(both, a, c, x, y)
    {
      var t := Target(first, w, h, x, y);
      assert AmountsAt(first, second, both, w, h, x, y);
      assert MovedTo(first, a, b, x, y) && MovedTo(second, b, c, t.0, t.1);
    }
  }

  /** Orientation 1 leaves an image as it is: 6 and 8 undo each other, 2, 3 and 4 undo themselves, 6 twice is
      3, and 2 after 4 is 3. */
  lemma OrientationTable()
    ensures Amounts(6, 8, 1) && Amounts(8, 6, 1) && Amounts(2, 2, 1) && Amounts(3, 3, 1) && Amounts(4, 4, 1)
    ensures Amounts(6, 6, 3) && Amounts(4, 2, 3) && Amounts(5, 6, 1) && Amounts(7, 8, 1)
  {
  }

  lemma OrientedOnce<Color>(a: array2<Color>, b: array2<Color>)
    ensures IsOriented(1, a, b) <==> b.Length0 == a.Length0 && b.Length1 == a.Length1 &&
                                     forall x, y | 0 <= x < a.Length0 && 0 <= y < a.Length1 :: b[x, y] == a[x, y]
  {
    if IsOriented(1, a, b) {
      assert forall x, y | 0 <= x < a.Length0 && 0 <= y < a.Length1 :: MovedTo(1, a, b, x, y) ==> b[x, y] == a[x, y];
    }
  }

  /** So an image turned by 6 and then by 8, say, is the image again, pixel by pixel. */
  lemma TurnBack<Color>(first: int, second: int, a: array2<Color>, b: array2<Color>, c: array2<Color>)
    requires (first, second) in {(6, 8), (8, 6), (2, 2), (3, 3), (4, 4), (5, 6), (7, 8)}
    requires IsOriented(first, a, b) && IsOriented(second, b, c)
    ensures c.Length0 == a.Length0 && c.Length1 == a.Length1
    ensures forall x, y | 0 <= x < a.Length0 && 0 <= y < a.Length1 :: c[x, y] == a[x, y]
  {
    OrientationTable();
    TurnTwice(first, second, 1, a, b, c);
    OrientedOnce(a, c);
  }

  // ---------------------------------------------------------------- rows and columns

  function Row<Color>(a: array2<Color>, y: int): (r: seq<Color>)
    requires 0 <= y < a.Length1
    reads a
  {
    seq(a.Length0, x requires 0 <= x < a.Length0 reads a => a[x, y])
  }

  function Column<Color>(a: array2<Color>, x: int): (r: seq<Color>)
    requires 0 <= x < a.Length0
    reads a
  {
    seq(a.Length1, y requires 0 <= y < a.Length1 reads a => a[x, y])
  }

  function Backwards<T>(s: seq<T>): (r: seq<T>) { seq(|s|, i requires 0 <= i < |s| => s[|s| - 1 - i]) }

  /** 2 mirrors left and right: each row stays where it is, backwards. */
  lemma MirrorsRows<Color>(img: array2<Color>, r: array2<Color>, y: nat)
    requires IsOriented(2, img, r) && y < img.Length1
    ensures r.Length1 == img.Length1 && Row(r, y) == Backwards(Row(img, y))
  {
    var w := img.Length0;
    forall x | 0 <= x < w
      ensures r[x, y] == img[w - 1 - x, y]
    {
      assert MovedTo(2, img, r, w - 1 - x, y);
    }
  }

  /** 3 turns upside down: the rows change places top to bottom, each backwards. */
  lemma TurnsUpsideDown<Color>(img: array2<Color>, r: array2<Color>, y: nat)
    requires IsOriented(3, img, r) && y < img.Length1
    ensures r.Length1 == img.Length1 && Row(r, img.Length1 - 1 - y) == Backwards(Row(img, y))
  {
    var w, u := img.Length0, img.Length1 - 1 - y;
    forall x | 0 <= x < w
      ensures r[x, u] == img[w - 1 - x, y]
    {
      assert MovedTo(3, img, r, w - 1 - x, y);
    }
  }

  /** 4 mirrors top and bottom: the rows change places, each as it is. */
  lemma MirrorsColumns<Color>(img: array2<Color>, r: array2<Color>, y: nat)
    requires IsOriented(4, img, r) && y < img.Length1
    ensures r.Length1 == img.Length1 && Row(r, img.Length1 - 1 - y) == Row(img, y)
  {
    forall x | 0 <= x < img.Length0
      ensures r[x, img.Length1 - 1 - y] == img[x, y]
    {
      assert MovedTo(4, img, r, x, y);
    }
  }

  /** 6, and 7 with it, turns clockwise: the top row becomes the right column, from the top down, and so on to the
      bottom row and the left column. */
  lemma TurnsClockwise<Color>(o: int, img: array2<Color>, r: array2<Color>, y: nat)
    requires (o == 6 || o == 7) && IsOriented(o, img, r) && y < img.Length1
    ensures r.Length0 == img.Length1 && Column(r, r.Length0 - 1 - y) == Row(img, y)
  {
    forall x | 0 <= x < img.Length0
      ensures r[r.Length0 - 1 - y, x] == img[x, y]
    {
      assert MovedTo(o, img, r, x, y);
    }
  }

  /** 8, and 5 with it, turns counter-clockwise: the top row becomes the left column, from the bottom up, and so on
      to the bottom row and the right column. */
  lemma TurnsCounterClockwise<Color>(o: int, img: array2<Color>, r: array2<Color>, y: nat)
    requires (o == 5 || o == 8) && IsOriented(o, img, r) && y < img.Length1
    ensures r.Length0 == img.Length1 && Column(r, y) == Backwards(Row(img, y))
  {
    var w := img.Length0;
    forall x | 0 <= x < w
      ensures r[y, x] == img[w - 1 - x, y]
    {
      assert MovedTo(o, img, r, w - 1 - x, y);
    }
  }

  /** Row by row, `b` is `a` with columns and rows exchanged, as orientation 5 asks for. */
  ghost predicate IsTransposed<Color>(a: array2<Color>, b: array2<Color>)
    requires b.Length0 == a.Length1
    reads a, b
  {
    forall y | 0 <= y < a.Length1 :: Column(b, y) == Row(a, y)
  }

  /** Row by row, `b` is `a` exchanged along the other diagonal, as orientation 7 asks for. */
  ghost predicate IsTransversed<Color>(a: array2<Color>, b: array2<Color>)
    requires b.Length0 == a.Length1
    reads a, b
  {
    forall y | 0 <= y < a.Length1 :: Column(b, b.Length0 - 1 - y) == Backwards(Row(a, y))
  }

  ghost predicate RowsArePalindromes<Color>(a: array2<Color>)
    reads a
  {
    forall y | 0 <= y < a.Length1 :: Row(a, y) == Backwards(Row(a, y))
  }

  /** Images with orientation 5 or 7 are turned but not mirrored, so they come out right exactly if every row reads
      the same both ways. */
  lemma TransposedExactlyWhen<Color>(img: array2<Color>, r: array2<Color>)
    requires IsOriented(5, img, r)
    ensures IsTransposed(img, r) <==> RowsArePalindromes(img)
  {
    forall y | 0 <= y < img.Length1
      ensures Column(r, y) == Backwards(Row(img, y))
    {
      TurnsCounterClockwise(5, img, r, y);
    }
  }

  lemma TransversedExactlyWhen<Color>(img: array2<Color>, r: array2<Color>)
    requires IsOriented(7, img, r)
    ensures IsTransversed(img, r) <==> RowsArePalindromes(img)
  {
    forall y | 0 <= y < img.Length1
      ensures Column(r, r.Length0 - 1 - y) == Row(img, y)
    {
      TurnsClockwise(7, img, r, y);
    }
  }

  // ---------------------------------------------------------------- size

  /** The size that an image is scaled down to, or `None` if it is sent on as it came. */
  function Downscaled(width: nat, height: nat): (r: Option<(nat, nat)>)
    requires width > 0 && height > 0
  {
    if width <= MAX_DIMENSION && height <= MAX_DIMENSION then None
    else
      var scaleX := MAX_DIMENSION as real / width as real;
      var scaleY := MAX_DIMENSION as real / height as real;
      var scale := if scaleY < scaleX then scaleY else scaleX;
      Some((Shrunk(width, scale), Shrunk(height, scale)))
  }

  function Shrunk(side: nat, scale: real): nat
    requires scale >= 0.0
  {
    ScaledFits(side, scale);
    var n := (side as real * scale).Floor;
    if n > MAX_DIMENSION then MAX_DIMENSION else n
  }

  lemma ScaledFits(side: nat, scale: real)
    requires scale >= 0.0
    ensures side as real * scale >= 0.0
  {
  }

  /** A side scaled by 1024 / `longer`, and rounded down. */
  lemma ScaledSide(side: nat, longer: nat, scaled: int)
    requires 0 < longer && scaled == (side as real * (MAX_DIMENSION as real / longer as real)).Floor
    ensures scaled * longer <= side * MAX_DIMENSION < (scaled + 1) * longer
  {
    var n := longer as real;
    var exact := side as real * (MAX_DIMENSION as real / n);
    assert exact * n == (side * MAX_DIMENSION) as real;
    assert scaled as real * n <= exact * n < (scaled + 1) as real * n;
  }

  lemma SmallerScale(size: real, width: real, height: real)
    requires size > 0.0 && width > 0.0 && height > 0.0
    ensures size / height < size / width <==> width < height
  {
    var p, q := size / height, size / width;
    assert p * height == size && q * width == size;
    assert (q - p) * height == (height - width) * q;
    SignOfProduct(q - p, height);
    SignOfProduct(height - width, q);
  }

  lemma SignOfProduct(a: real, n: real)
    requires n > 0.0
    ensures a * n > 0.0 <==> a > 0.0
  {
  }

  /** The longer side becomes 1024, the other keeps the aspect ratio to within a pixel, and is left with no
      pixel at all exactly if it was more than 1024 times shorter. */
  lemma KeepsAspect(width: nat, height: nat)
    requires width > 0 && height > 0 && Downscaled(width, height).Some?
    ensures var (w, h) := Downscaled(width, height).value;
            && w <= MAX_DIMENSION && h <= MAX_DIMENSION
            && (if width >= height then w == MAX_DIMENSION && IsRatio(h, w, height, width)
                else h == MAX_DIMENSION && IsRatio(w, h, width, height))
            && (w == 0 || h == 0 <==> width > MAX_DIMENSION * height || height > MAX_DIMENSION * width)
  {
    SmallerScale(MAX_DIMENSION as real, width as real, height as real);
    if width >= height { ScaledPair(width, height); } else { ScaledPair(height, width); }
  }

  /** What is sent is never larger than 1024 by 1024, and is the image as it came exactly if that was not. */
  lemma SentSizeFits(width: nat, height: nat)
    requires width > 0 && height > 0
    ensures var scaled := Downscaled(width, height);
            var (w, h) := if scaled.Some? then scaled.value else (width, height);
            w <= 1024 && h <= 1024 && ((w, h) == (width, height) <==> width <= 1024 && height <= 1024)
  {
    if Downscaled(width, height).Some? { KeepsAspect(width, height); }
  }

  /** `part / whole` is `a / b` to within `1 / whole`. */
  predicate IsRatio(part: int, whole: int, a: int, b: int) { part * b <= a * whole < (part + 1) * b }

  lemma ScaledShorter(longer: nat, shorter: nat, scaled: int)
    requires 0 < shorter <= longer && IsRatio(scaled, MAX_DIMENSION, shorter, longer)
    ensures 0 <= scaled <= MAX_DIMENSION && (scaled == 0 <==> longer > MAX_DIMENSION * shorter)
  {
    ProductOrder(0, scaled + 1, longer);
    ProductOrder(MAX_DIMENSION, scaled, longer);
    ProductOrder(scaled, 1, longer);
  }

  lemma ScaledPair(longer: nat, shorter: nat)
    requires 0 < shorter <= longer
    ensures var scale := MAX_DIMENSION as real / longer as real;
            && scale >= 0.0
            && Shrunk(longer, scale) == MAX_DIMENSION
            && IsRatio(Shrunk(shorter, scale), MAX_DIMENSION, shorter, longer)
            && (Shrunk(shorter, scale) == 0 <==> longer > MAX_DIMENSION * shorter)
  {
    var scale := MAX_DIMENSION as real / longer as real;
    var scaled := (shorter as real * scale).Floor;
    ScaledSide(shorter, longer, scaled);
    assert longer as real * scale == MAX_DIMENSION as real;
    ScaledShorter(longer, shorter, scaled);
  }

  lemma ProductOrder(a: int, b: int, n: nat)
    requires n > 0
    ensures a * n < b * n <==> a < b
  {
    assert (b - a) * n == b * n - a * n;
    assert (b - a) * n > 0 <==> b - a > 0;
  }
}
