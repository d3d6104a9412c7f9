/** The search for a zoom level and the placement of points on the tiles of a report map.  Floating-point
    numbers are real numbers; the Mercator formulas of the latitude are a parameter. */
module TileZoom {
  import opened Wrappers

  const TILE_SIZE := 256
  const MAX_TILES := 16
  const MAX_ZOOM: nat := 19

  /** `fraction` takes a latitude between the poles to its distance from the north edge of the map, as a fraction
      of the map's height; `latitude` goes the other way. */
  datatype Projection = Projection(fraction: real -> real, latitude: real -> real)

  datatype ViewPort = ViewPort(latMin: real, lonMin: real, latMax: real, lonMax: real)

  datatype Tiles = Tiles(xMin: int, xMax: int, yMin: int, yMax: int) {
    function Columns(): int { xMax - xMin + 1 }
    function Rows(): int { yMax - yMin + 1 }
    function Count(): int { Columns() * Rows() }
    predicate Has(x: int, y: int) { xMin <= x <= xMax && yMin <= y <= yMax }
  }

  // ---------------------------------------------------------------- tile indices

  function Across(zoom: nat): (n: int)
    ensures n >= 1
  {
    if zoom == 0 then 1 else 2 * Across(zoom - 1)
  }

  /** A conversion to an integer drops the fraction, also below zero. */
  function Truncate(x: real): int { if x >= 0.0 then x.Floor else -(-x).Floor }

  function Column(lon: real): real { (lon + 180.0) / 360.0 }

  /** A fraction of the width or height of the map, in tiles. */
  function Offset(part: real, zoom: nat): real { part * Across(zoom) as real }

  function Index(part: real, zoom: nat): int { Truncate(Offset(part, zoom)) }

  function LatLngToTile(p: Projection, lat: real, lon: real, zoom: nat): (int, int) {
    (Index(Column(lon), zoom), Index(p.fraction(lat), zoom))
  }

  function TilesAt(p: Projection, box: ViewPort, zoom: nat): Tiles {
    var southWest := LatLngToTile(p, box.latMin, box.lonMin, zoom);
    var northEast := LatLngToTile(p, box.latMax, box.lonMax, zoom);
    Tiles(southWest.0, northEast.0, northEast.1, southWest.1)
  }

  predicate Few(tiles: Tiles) { tiles.Count() <= MAX_TILES }

  predicate Fits(p: Projection, box: ViewPort, zoom: nat) { Few(TilesAt(p, box, zoom)) }

  /** The projection has a value: beyond the poles the source takes the logarithm of a negative number. */
  predicate IsDefined(lat: real) { -90.0 < lat < 90.0 }

  predicate IsOrdered(p: Projection, box: ViewPort) {
    && IsDefined(box.latMin) && IsDefined(box.latMax)
    && box.lonMin <= box.lonMax && p.fraction(box.latMax) <= p.fraction(box.latMin)
  }

  /** The box lies in the Web Mercator square. */
  predicate InSquare(p: Projection, box: ViewPort) {
    -180.0 <= box.lonMin && box.lonMax <= 180.0 && 0.0 <= p.fraction(box.latMax) && p.fraction(box.latMin) <= 1.0
  }

  // ---------------------------------------------------------------- the search

  /** The largest zoom that fits, with the tiles of that zoom; failing that, zoom 19 with the tiles of zoom 1,
      the last one looked at. */
  ghost predicate IsFound(p: Projection, box: ViewPort, zoom: nat, tiles: Tiles) {
    if !NoneFits(p, box, 0) then
      && 1 <= zoom <= MAX_ZOOM && Fits(p, box, zoom) && tiles == TilesAt(p, box, zoom)
      && NoneFits(p, box, zoom)
    else
      zoom == MAX_ZOOM && tiles == TilesAt(p, box, 1)
  }

  ghost predicate NoneFits(p: Projection, box: ViewPort, below: nat) {
    forall z | below < z <= MAX_ZOOM :: !Fits(p, box, z)
  }

  lemma OneMore(p: Projection, box: ViewPort, z: nat)
    requires NoneFits(p, box, z + 1) && !Fits(p, box, z + 1)
    ensures NoneFits(p, box, z)
  {
  }

  method SearchZoom(p: Projection, box: ViewPort) returns (zoom: nat, tiles: Tiles)
    ensures IsFound(p, box, zoom, tiles)
  {
    zoom, tiles := MAX_ZOOM, Tiles(0, 0, 0, 0);
    var z: nat := zoom;
    while z > 0
      invariant zoom == MAX_ZOOM && z <= MAX_ZOOM && NoneFits(p, box, z)
      invariant z == 0 ==> tiles == TilesAt(p, box, 1)
    {
      tiles := TilesAt(p, box, z);
      if Few(tiles) {
        assert Fits(p, box, z);
        return z, tiles;
      }
      z := z - 1;
      OneMore(p, box, z);
    }
  }

  lemma TruncateSpread(a: real, b: real)
    requires a <= b
    ensures 0 <= Truncate(b) - Truncate(a) <= Truncate(2.0 * b) - Truncate(2.0 * a)
  {
    TruncateTwice(a);
    TruncateTwice(b);
    TruncateGrows(a, b);
    TruncateGrows(2.0 * a, 2.0 * b);
  }

  lemma TruncateGrows(a: real, b: real)
    requires a <= b
    ensures Truncate(a) <= Truncate(b)
  {
  }

  lemma TruncateTwice(a: real)
    ensures a >= 0.0 ==> 2 * Truncate(a) <= Truncate(2.0 * a) <= 2 * Truncate(a) + 1
    ensures a <= 0.0 ==> 2 * Truncate(a) - 1 <= Truncate(2.0 * a) <= 2 * Truncate(a)
  {
  }

  lemma OffsetDoubles(a: real, zoom: nat)
    ensures Offset(a, zoom + 1) == 2.0 * Offset(a, zoom)
  {
    var n := Across(zoom) as real;
    assert Across(zoom + 1) as real == n + n;
    assert a * (n + n) == a * n + a * n;
  }

  lemma OffsetGrows(a: real, b: real, zoom: nat)
    requires a <= b
    ensures Offset(a, zoom) <= Offset(b, zoom)
  {
    var n := Across(zoom) as real;
    assert n >= 0.0;
    assert (b - a) * n >= 0.0;
  }

  lemma IndexSpread(a: real, b: real, zoom: nat)
    requires a <= b
    ensures 0 <= Index(b, zoom) - Index(a, zoom) <= Index(b, zoom + 1) - Index(a, zoom + 1)
  {
    OffsetGrows(a, b, zoom);
    OffsetDoubles(a, zoom);
    OffsetDoubles(b, zoom);
    TruncateSpread(Offset(a, zoom), Offset(b, zoom));
  }

  lemma ProductGrows(a: int, b: int, c: int, d: int)
    requires 0 <= a <= c && 0 <= b <= d
    ensures a * b <= c * d
  {
    assert a * b <= c * b <= c * d;
  }

  lemma ColumnOrdered(a: real, b: real)
    requires a <= b
    ensures Column(a) <= Column(b)
  {
  }

  /** The number of tiles never grows as the zoom drops, wherever the box lies. */
  lemma {:induction false} CountGrows(p: Projection, box: ViewPort, low: nat, high: nat)
    requires IsOrdered(p, box) && low <= high
    ensures 1 <= TilesAt(p, box, low).Count() <= TilesAt(p, box, high).Count()
    decreases high
  {
    var t := TilesAt(p, box, low);
    ColumnOrdered(box.lonMin, box.lonMax);
    IndexSpread(Column(box.lonMin), Column(box.lonMax), low);
    IndexSpread(p.fraction(box.latMax), p.fraction(box.latMin), low);
    ProductGrows(1, 1, t.Columns(), t.Rows());
    if low < high {
      IndexSpread(Column(box.lonMin), Column(box.lonMax), high - 1);
      IndexSpread(p.fraction(box.latMax), p.fraction(box.latMin), high - 1);
      var below := TilesAt(p, box, high - 1);
      var above := TilesAt(p, box, high);
      ProductGrows(below.Columns(), below.Rows(), above.Columns(), above.Rows());
      CountGrows(p, box, low, high - 1);
    }
  }

  /** An index that stays the same from zoom 1 to zoom 19 is zero. */
  lemma IndexMoves(a: real)
    requires Index(a, 1) == Index(a, MAX_ZOOM)
    ensures Index(a, 1) == 0
  {
    AcrossAt19();
    assert Across(1) == 2;
    assert a * 524288.0 == 262144.0 * (a * 2.0);
    TruncateMoves(a * 2.0);
  }

  lemma TruncateMoves(x: real)
    requires Truncate(x) == Truncate(262144.0 * x)
    ensures Truncate(x) == 0
  {
    TruncateTwice(x);
    if x >= 0.0 {
      TruncateGrows(2.0 * x, 262144.0 * x);
    } else {
      TruncateGrows(262144.0 * x, 2.0 * x);
    }
  }

  lemma AcrossAt19()
    ensures Across(MAX_ZOOM) == 524288
  {
    assert Across(4) == 16;
    assert Across(8) == 256;
    assert Across(12) == 4096;
    assert Across(16) == 65536;
  }

  ghost predicate Mismatch(p: Projection, box: ViewPort) { TilesAt(p, box, 1) != TilesAt(p, box, MAX_ZOOM) }

  lemma TooWideMoves(p: Projection, box: ViewPort)
    requires !Fits(p, box, 1)
    ensures Mismatch(p, box)
  {
    if TilesAt(p, box, 1) == TilesAt(p, box, MAX_ZOOM) {
      IndexMoves(Column(box.lonMin));
      IndexMoves(Column(box.lonMax));
      IndexMoves(p.fraction(box.latMin));
      IndexMoves(p.fraction(box.latMax));
    }
  }

  /** What the search returns for every box given in order: a zoom with at most 16 tiles, the largest one, and
      the tiles of that same zoom, exactly if at most 16 tiles cover the box at zoom 1.  Otherwise the zoom
      and the tiles do not belong together. */
  lemma SearchResult(p: Projection, box: ViewPort, zoom: nat, tiles: Tiles)
    requires IsOrdered(p, box) && IsFound(p, box, zoom, tiles)
    ensures tiles == TilesAt(p, box, zoom) <==> Fits(p, box, 1)
    ensures Fits(p, box, 1) ==>
              1 <= tiles.Count() <= MAX_TILES && forall z | zoom < z <= MAX_ZOOM :: !Fits(p, box, z)
    ensures !Fits(p, box, 1) ==> zoom == MAX_ZOOM && tiles.Count() > MAX_TILES
  {
    if Fits(p, box, 1) {
      CountGrows(p, box, zoom, zoom);
    } else {
      forall z | 1 <= z <= MAX_ZOOM
        ensures !Fits(p, box, z)
      {
        CountGrows(p, box, 1, z);
      }
      TooWideMoves(p, box);
    }
  }

  /** Inside the square nine tiles are enough at zoom 1, so the search succeeds. */
  lemma SquareFits(p: Projection, box: ViewPort)
    requires IsOrdered(p, box) && InSquare(p, box)
    ensures Fits(p, box, 1)
  {
    var t := TilesAt(p, box, 1);
    assert Across(1) == 2;
    assert 0 <= t.xMin && t.xMax <= 2 && 0 <= t.yMin && t.yMax <= 2;
    CountGrows(p, box, 1, 1);
    ColumnOrdered(box.lonMin, box.lonMax);
    IndexSpread(Column(box.lonMin), Column(box.lonMax), 1);
    IndexSpread(p.fraction(box.latMax), p.fraction(box.latMin), 1);
    ProductGrows(t.Columns(), t.Rows(), 3, 3);
  }

  // ---------------------------------------------------------------- bounding boxes

  function KilometreDegrees(cosine: real): (degrees: real)
    requires cosine > 0.0
    ensures degrees >= 1.0 / 111.32
  {
    var latDegrees := 1.0 / 111.32;
    var lonDegrees := 1.0 / (111.32 * cosine);
    if lonDegrees > latDegrees then lonDegrees else latDegrees
  }

  /** The box of at least a kilometre around a point whose latitude has the cosine `cosine`. */
  function KilometreBox(lat: real, lon: real, cosine: real): ViewPort
    requires cosine > 0.0
  {
    var half := KilometreDegrees(cosine) / 2.0;
    ViewPort(lat - half, lon - half, lat + half, lon + half)
  }

  /** It is at least a kilometre high and wide, a degree of latitude being 111.32 km, with the point in its
      middle. */
  lemma KilometreIsCovered(lat: real, lon: real, cosine: real)
    requires cosine > 0.0
    ensures var box := KilometreBox(lat, lon, cosine);
            && (box.latMax - box.latMin) * 111.32 >= 1.0
            && (box.lonMax - box.lonMin) * (111.32 * cosine) >= 1.0
            && box.latMin + box.latMax == 2.0 * lat && box.lonMin + box.lonMax == 2.0 * lon
  {
    var box := KilometreBox(lat, lon, cosine);
    var degrees, scale := box.lonMax - box.lonMin, 111.32 * cosine;
    assert (1.0 / scale) * scale == 1.0;
    assert (degrees - 1.0 / scale) * scale >= 0.0;
  }

  function Abs(x: real): real { if x < 0.0 then -x else x }

  /** The box stays between the poles exactly if half its side is less than the distance to the nearer pole. */
  lemma KilometreDefinedExactlyWhen(lat: real, lon: real, cosine: real)
    requires cosine > 0.0
    ensures var box := KilometreBox(lat, lon, cosine);
            IsDefined(box.latMin) && IsDefined(box.latMax) <==> Abs(lat) + KilometreDegrees(cosine) / 2.0 < 90.0
  {
  }

  /** Bounds that the cosine of a latitude `margin` degrees from a pole meets, the sine of `margin` degrees. */
  predicate IsCosineNearPole(margin: real, cosine: real) {
    && margin / 90.0 <= cosine <= 0.0174533 * margin
    && (margin <= 1.0 ==> 0.01745 * margin <= cosine)
  }

  /** So it does up to 89.492 degrees from the equator, and does not from 89.493 degrees on. */
  lemma KilometreNearPole(lat: real, lon: real, cosine: real)
    requires Abs(lat) < 90.0 && IsCosineNearPole(90.0 - Abs(lat), cosine) && cosine > 0.0
    ensures var box := KilometreBox(lat, lon, cosine);
            && (Abs(lat) <= 89.492 ==> IsDefined(box.latMin) && IsDefined(box.latMax))
            && (Abs(lat) >= 89.493 ==> !(IsDefined(box.latMin) && IsDefined(box.latMax)))
  {
    KilometreDefinedExactlyWhen(lat, lon, cosine);
    HalfSide(90.0 - Abs(lat), cosine);
  }

  lemma Product(a: real, b: real, c: real, d: real)
    requires 0.0 <= a <= b && 0.0 <= c <= d
    ensures a * c <= b * d
  {
    assert a * c <= b * c;
    assert b * c <= b * d;
  }

  lemma Cancel(a: real, b: real, n: real, an: real, bn: real)
    requires n > 0.0 && an == a * n && bn == b * n
    ensures an < bn <==> a < b
  {
    if a < b { assert (b - a) * n > 0.0; } else { assert (a - b) * n >= 0.0; }
  }

  lemma Reciprocal(x: real, y: real)
    requires x > 0.0
    ensures 1.0 / x < y <==> 1.0 < y * x
  {
    Cancel(1.0 / x, y, x, 1.0, y * x);
  }

  lemma HalfSide(margin: real, cosine: real)
    requires margin > 0.0 && IsCosineNearPole(margin, cosine) && cosine > 0.0
    ensures margin >= 0.508 ==> KilometreDegrees(cosine) / 2.0 < margin
    ensures margin <= 0.507 ==> KilometreDegrees(cosine) / 2.0 >= margin
  {
    var x, y := 111.32 * cosine, 2.0 * margin;
    Reciprocal(x, y);
    if margin <= 0.507 {
      Product(cosine, 0.0174533 * 0.507, margin, 0.507);
      TwoFactors(cosine, margin, 0.0174533 * 0.507, 0.507);
      assert y * x <= 1.0;
    } else if 0.508 <= margin <= 1.0 {
      Product(0.01745 * 0.508, cosine, 0.508, margin);
      TwoFactors(cosine, margin, 0.01745 * 0.508, 0.508);
      assert y * x > 1.0;
    } else if margin > 1.0 {
      Product(1.0 / 90.0, cosine, 1.0, margin);
      TwoFactors(cosine, margin, 1.0 / 90.0, 1.0);
      assert y * x > 1.0;
    }
  }

  /** From the product of cosine and margin to that of the scaled two. */
  lemma TwoFactors(cosine: real, margin: real, c: real, m: real)
    ensures cosine * margin >= c * m ==> (2.0 * margin) * (111.32 * cosine) >= 222.64 * (c * m)
    ensures cosine * margin <= c * m ==> (2.0 * margin) * (111.32 * cosine) <= 222.64 * (c * m)
  {
    assert (2.0 * margin) * (111.32 * cosine) == 222.64 * (cosine * margin);
  }

  /** A point is a longitude and a latitude. */
  type Ring = seq<(real, real)>

  const NOWHERE := ViewPort(90.0, 180.0, -90.0, -180.0)

  function Min(a: real, b: real): real { if b < a then b else a }

  function Max(a: real, b: real): real { if b > a then b else a }

  predicate InBox(box: ViewPort, pt: (real, real)) {
    box.lonMin <= pt.0 <= box.lonMax && box.latMin <= pt.1 <= box.latMax
  }

  predicate Within(inner: ViewPort, outer: ViewPort) {
    && outer.latMin <= inner.latMin && inner.latMax <= outer.latMax
    && outer.lonMin <= inner.lonMin && inner.lonMax <= outer.lonMax
  }

  ghost predicate AllIn(box: ViewPort, pts: Ring) { forall pt | pt in pts :: InBox(box, pt) }

  /** The smallest box with all of `pts` in it, among those that meet the globe. */
  ghost predicate Bounds(box: ViewPort, pts: Ring) {
    && AllIn(box, pts) && Within(NOWHERE, box)
    && forall other | AllIn(other, pts) && Within(NOWHERE, other) :: Within(box, other)
  }

  function Widened(box: ViewPort, pt: (real, real)): ViewPort {
    ViewPort(Min(box.latMin, pt.1), Min(box.lonMin, pt.0), Max(box.latMax, pt.1), Max(box.lonMax, pt.0))
  }

  function Joined(a: ViewPort, b: ViewPort): ViewPort {
    ViewPort(Min(a.latMin, b.latMin), Min(a.lonMin, b.lonMin), Max(a.latMax, b.latMax), Max(a.lonMax, b.lonMax))
  }

  lemma AllInAppend(box: ViewPort, a: Ring, b: Ring)
    ensures AllIn(box, a + b) <==> AllIn(box, a) && AllIn(box, b)
  {
    assert forall pt :: pt in a + b <==> pt in a || pt in b;
  }

  lemma BoundsWiden(box: ViewPort, pts: Ring, pt: (real, real))
    requires Bounds(box, pts)
    ensures Bounds(Widened(box, pt), pts + [pt])
  {
    var wide := Widened(box, pt);
    AllInAppend(wide, pts, [pt]);
    assert InBox(wide, pt);
    forall other | AllIn(other, pts + [pt]) && Within(NOWHERE, other)
      ensures Within(wide, other)
    {
      AllInAppend(other, pts, [pt]);
      assert pt in [pt] && Within(box, other);
    }
  }

  lemma BoundsJoin(a: ViewPort, ps: Ring, b: ViewPort, qs: Ring)
    requires Bounds(a, ps) && Bounds(b, qs)
    ensures Bounds(Joined(a, b), ps + qs)
  {
    var both := Joined(a, b);
    AllInAppend(both, ps, qs);
    forall other | AllIn(other, ps + qs) && Within(NOWHERE, other)
      ensures Within(both, other)
    {
      AllInAppend(other, ps, qs);
    }
  }

  function Points(rings: seq<Ring>): Ring {
    if rings == [] then [] else Points(rings[..|rings| - 1]) + rings[|rings| - 1]
  }

  function AllPoints(polygons: seq<seq<Ring>>): Ring {
    if polygons == [] then [] else AllPoints(polygons[..|polygons| - 1]) + Points(polygons[|polygons| - 1])
  }

  method ComputeBoundingBoxPolygon(coords: seq<Ring>) returns (box: ViewPort)
    ensures Bounds(box, Points(coords))
  {
    box := NOWHERE;
    for i := 0 to |coords|
      invariant Bounds(box, Points(coords[..i]))
    {
      var ring := coords[i];
      ghost var before := Points(coords[..i]);
      assert before + ring[..0] == before;
      for j := 0 to |ring|
        invariant Bounds(box, before + ring[..j])
      {
        var (lon, lat) := ring[j];
        BoundsWiden(box, before + ring[..j], ring[j]);
        assert before + ring[..j + 1] == before + ring[..j] + [ring[j]];
        if lon < box.lonMin { box := box.(lonMin := lon); }
        if lon > box.lonMax { box := box.(lonMax := lon); }
        if lat < box.latMin { box := box.(latMin := lat); }
        if lat > box.latMax { box := box.(latMax := lat); }
      }
      assert ring[..|ring|] == ring && coords[..i + 1][..i] == coords[..i];
    }
    assert coords[..|coords|] == coords;
  }

  method ComputeBoundingBoxMultiPolygon(coords: seq<seq<Ring>>) returns (box: ViewPort)
    ensures Bounds(box, AllPoints(coords))
  {
    box := NOWHERE;
    for i := 0 to |coords|
      invariant Bounds(box, AllPoints(coords[..i]))
    {
      var part := ComputeBoundingBoxPolygon(coords[i]);
      BoundsJoin(box, AllPoints(coords[..i]), part, Points(coords[i]));
      assert coords[..i + 1][..i] == coords[..i];
      if part.lonMin < box.lonMin { box := box.(lonMin := part.lonMin); }
      if part.latMin < box.latMin { box := box.(latMin := part.latMin); }
      if part.lonMax > box.lonMax { box := box.(lonMax := part.lonMax); }
      if part.latMax > box.latMax { box := box.(latMax := part.latMax); }
    }
    assert coords[..|coords|] == coords;
  }

  datatype Geometry = Polygon(rings: seq<Ring>) | MultiPolygon(polygons: seq<seq<Ring>>) | OtherGeometry

  function PointsOf(g: Geometry): Ring {
    match g
    case Polygon(rings) => Points(rings)
    case MultiPolygon(polygons) => AllPoints(polygons)
    case OtherGeometry => []
  }

  ghost predicate IsDecreasing(p: Projection) {
    forall a, b | IsDefined(a) && IsDefined(b) && a <= b :: p.fraction(b) <= p.fraction(a)
  }

  /** A point of the Web Mercator square. */
  predicate OnMap(p: Projection, pt: (real, real)) {
    -180.0 <= pt.0 <= 180.0 && IsDefined(pt.1) && 0.0 <= p.fraction(pt.1) <= 1.0
  }

  /** The box of a polygon that has points, all of them in the square, is ordered and in the square. */
  lemma BoundsInSquare(p: Projection, box: ViewPort, pts: Ring)
    requires IsDecreasing(p) && Bounds(box, pts) && pts != [] && forall pt | pt in pts :: OnMap(p, pt)
    ensures IsOrdered(p, box) && InSquare(p, box)
  {
    assert InBox(box, pts[0]);
    NorthAndSouth(p, box, pts);
    assert AllIn(ViewPort(-90.0, -180.0, 90.0, 180.0), pts);
  }

  lemma {:induction false} Northernmost(pts: Ring) returns (north: (real, real))
    requires pts != []
    ensures north in pts && forall pt | pt in pts :: pt.1 <= north.1
  {
    north := pts[0];
    if |pts| > 1 {
      north := Northernmost(pts[1..]);
      assert pts == [pts[0]] + pts[1..];
      if north.1 < pts[0].1 { north := pts[0]; }
    }
  }

  lemma {:induction false} Southernmost(pts: Ring) returns (south: (real, real))
    requires pts != []
    ensures south in pts && forall pt | pt in pts :: south.1 <= pt.1
  {
    south := pts[0];
    if |pts| > 1 {
      south := Southernmost(pts[1..]);
      assert pts == [pts[0]] + pts[1..];
      if pts[0].1 < south.1 { south := pts[0]; }
    }
  }

  lemma NorthAndSouth(p: Projection, box: ViewPort, pts: Ring)
    requires IsDecreasing(p) && Bounds(box, pts) && pts != [] && forall pt | pt in pts :: OnMap(p, pt)
    ensures IsDefined(box.latMin) && IsDefined(box.latMax)
    ensures 0.0 <= p.fraction(box.latMax) && p.fraction(box.latMin) <= 1.0
  {
    assert InBox(box, pts[0]);
    var north := Northernmost(pts);
    var south := Southernmost(pts);
    assert AllIn(box.(latMax := north.1), pts);
    assert AllIn(box.(latMin := south.1), pts);
    assert OnMap(p, north) && OnMap(p, south);
  }

  /** For a polygon on the map: at most 16 tiles, at the largest zoom for which that is so. */
  method BoundToZoomXY(p: Projection, g: Geometry) returns (r: Option<(nat, Tiles)>)
    ensures r.None? <==> g.OtherGeometry?
    ensures r.Some? ==> exists box :: Bounds(box, PointsOf(g)) && IsFound(p, box, r.value.0, r.value.1)
    ensures r.Some? && IsDecreasing(p) && PointsOf(g) != [] && (forall pt | pt in PointsOf(g) :: OnMap(p, pt)) ==>
              Few(r.value.1) && exists box :: Bounds(box, PointsOf(g)) && r.value.1 == TilesAt(p, box, r.value.0)
  {
    var box;
    match g {
      case Polygon(rings) => box := ComputeBoundingBoxPolygon(rings);
      case MultiPolygon(polygons) => box := ComputeBoundingBoxMultiPolygon(polygons);
      case OtherGeometry => return None;
    }
    var zoom, tiles := SearchZoom(p, box);
    if IsDecreasing(p) && PointsOf(g) != [] && forall pt | pt in PointsOf(g) :: OnMap(p, pt) {
      BoundsInSquare(p, box, PointsOf(g));
      SquareFits(p, box);
      SearchResult(p, box, zoom, tiles);
    }
    r := Some((zoom, tiles));
  }

  /** A polygon that is much wider than the globe: zoom 1 has too many tiles, and the search ends with zoom 19 and
      the tiles of zoom 1. */
  lemma WidePolygonFails(p: Projection, zoom: nat, tiles: Tiles)
    requires IsFound(p, ViewPort(0.0, -2000.0, 0.0, 2000.0), zoom, tiles)
    ensures Bounds(ViewPort(0.0, -2000.0, 0.0, 2000.0), PointsOf(Polygon([[(-2000.0, 0.0), (2000.0, 0.0)]])))
    ensures zoom == MAX_ZOOM && tiles != TilesAt(p, ViewPort(0.0, -2000.0, 0.0, 2000.0), zoom)
    ensures tiles == TilesAt(p, ViewPort(0.0, -2000.0, 0.0, 2000.0), 1) && tiles.Count() > MAX_TILES
  {
    var box := ViewPort(0.0, -2000.0, 0.0, 2000.0);
    WidePolygonBounds();
    WideBoxFails(p);
    SearchResult(p, box, zoom, tiles);
  }

  lemma WidePolygonBounds()
    ensures Bounds(ViewPort(0.0, -2000.0, 0.0, 2000.0), PointsOf(Polygon([[(-2000.0, 0.0), (2000.0, 0.0)]])))
  {
    var ring := [(-2000.0, 0.0), (2000.0, 0.0)];
    var rings := [ring];
    assert Points(rings[..0]) == [] && rings[..|rings| - 1] == rings[..0];
    assert Points(rings) == ring;
    assert ring[0] in ring && ring[1] in ring;
  }

  lemma WideBoxFails(p: Projection)
    ensures !Fits(p, ViewPort(0.0, -2000.0, 0.0, 2000.0), 1)
  {
    var t := TilesAt(p, ViewPort(0.0, -2000.0, 0.0, 2000.0), 1);
    assert Across(1) == 2;
    assert t.xMin == -10 && t.xMax == 12 && t.yMin == t.yMax;
  }

  /** The kilometre box around a report is on the map, except that it may hang over the antimeridian. */
  ghost predicate KilometreOnMap(p: Projection, lat: real, lon: real, cosine: real)
    requires cosine > 0.0
  {
    var box := KilometreBox(lat, lon, cosine);
    && -180.0 <= lon <= 180.0 && IsDefined(box.latMin) && IsDefined(box.latMax)
    && 0.0 <= p.fraction(box.latMax) && p.fraction(box.latMin) <= 1.0
  }

  lemma KilometreFits(p: Projection, lat: real, lon: real, cosine: real)
    requires cosine > 0.0 && IsDecreasing(p) && KilometreOnMap(p, lat, lon, cosine)
    ensures IsOrdered(p, KilometreBox(lat, lon, cosine)) && Fits(p, KilometreBox(lat, lon, cosine), 1)
  {
    var box := KilometreBox(lat, lon, cosine);
    var t := TilesAt(p, box, 1);
    assert Across(1) == 2;
    assert -270.0 <= box.lonMin && box.lonMax <= 270.0;
    assert 0 <= t.xMin && t.xMax <= 2 && 0 <= t.yMin && t.yMax <= 2;
    CountGrows(p, box, 1, 1);
    ColumnOrdered(box.lonMin, box.lonMax);
    IndexSpread(Column(box.lonMin), Column(box.lonMax), 1);
    IndexSpread(p.fraction(box.latMax), p.fraction(box.latMin), 1);
    ProductGrows(t.Columns(), t.Rows(), 3, 3);
  }

  /** For a report whose box is on the map: at most 16 tiles, of the zoom that is returned, the largest for which
      that is so. For any box between the poles zoom and tiles match exactly if 16 tiles are enough at zoom 1. */
  method Generate1kmBoundingBox(p: Projection, lat: real, lon: real, cosine: real) returns (zoom: nat, tiles: Tiles)
    requires cosine > 0.0
    ensures var box := KilometreBox(lat, lon, cosine);
            && IsFound(p, box, zoom, tiles)
            && (IsOrdered(p, box) ==> (tiles == TilesAt(p, box, zoom) <==> Fits(p, box, 1)))
            && (IsDecreasing(p) && KilometreOnMap(p, lat, lon, cosine) ==>
                  && 1 <= zoom <= MAX_ZOOM && tiles == TilesAt(p, box, zoom) && Few(tiles)
                  && NoneFits(p, box, zoom))
  {
    ghost var box := KilometreBox(lat, lon, cosine);
    zoom, tiles := SearchZoom(p, KilometreBox(lat, lon, cosine));
    if IsOrdered(p, box) { SearchResult(p, box, zoom, tiles); }
    if IsDecreasing(p) && KilometreOnMap(p, lat, lon, cosine) {
      KilometreFits(p, lat, lon, cosine);
      SearchResult(p, box, zoom, tiles);
    }
  }

  // ---------------------------------------------------------------- the tile matrix

  /** Row by row from the north, each tile as its column and row index. */
  method GetAllTiles(t: Tiles) returns (tiles: array2<(int, int)>)
    requires t.Columns() >= 0 && t.Rows() >= 0
    ensures fresh(tiles) && tiles.Length0 == t.Rows() && tiles.Length1 == t.Columns()
    ensures forall i, j | 0 <= i < tiles.Length0 && 0 <= j < tiles.Length1 :: tiles[i, j] == TileAt(t, i, j)
  {
    tiles := new (int, int)[t.Rows(), t.Columns()];
    var y := t.yMin;
    while y <= t.yMax
      invariant t.yMin <= y <= t.yMax + 1
      invariant forall i, j | 0 <= i < y - t.yMin && 0 <= j < tiles.Length1 :: tiles[i, j] == TileAt(t, i, j)
    {
      var x, row := t.xMin, y - t.yMin;
      while x <= t.xMax
        invariant t.xMin <= x <= t.xMax + 1
        invariant forall i, j | 0 <= i < y - t.yMin && 0 <= j < tiles.Length1 :: tiles[i, j] == TileAt(t, i, j)
        invariant forall j | 0 <= j < x - t.xMin :: tiles[row, j] == TileAt(t, row, j)
      {
        tiles[row, x - t.xMin] := (x, y);
        x := x + 1;
      }
      y := y + 1;
    }
  }

  function TileAt(t: Tiles, i: int, j: int): (int, int) { (t.xMin + j, t.yMin + i) }

  predicate OnTile(part: real, index: int, zoom: nat) {
    index as real <= Offset(part, zoom) < index as real + 1.0
  }

  /** Some point between the two has the index. */
  ghost predicate Takes(from: real, to: real, index: int, zoom: nat) {
    exists part: real :: from <= part <= to && Index(part, zoom) == index
  }

  /** Some point between the two lies on the tile. */
  ghost predicate Crosses(from: real, to: real, index: int, zoom: nat) {
    exists part: real :: from <= part <= to && OnTile(part, index, zoom)
  }

  /** Some point of the box has the tile's indices. */
  ghost predicate Meets(p: Projection, box: ViewPort, x: int, y: int, zoom: nat) {
    && Takes(Column(box.lonMin), Column(box.lonMax), x, zoom)
    && Takes(p.fraction(box.latMax), p.fraction(box.latMin), y, zoom)
  }

  lemma IndexIsTile(part: real, zoom: nat)
    requires part >= 0.0
    ensures OnTile(part, Index(part, zoom), zoom)
  {
    OffsetGrows(0.0, part, zoom);
  }

  lemma TileEdge(index: int, zoom: nat) returns (part: real)
    ensures Offset(part, zoom) == index as real
  {
    var n := Across(zoom) as real;
    part := index as real / n;
    assert part * n == index as real;
  }

  lemma OffsetOrder(a: real, b: real, zoom: nat)
    ensures Offset(a, zoom) <= Offset(b, zoom) <==> a <= b
  {
    var n := Across(zoom) as real;
    assert a * n - b * n == (a - b) * n;
    if a <= b {
      assert (a - b) * n <= 0.0;
    } else {
      assert (a - b) * n > 0.0;
    }
  }

  lemma TakesIndices(from: real, to: real, index: int, zoom: nat)
    requires from <= to
    ensures Takes(from, to, index, zoom) <==> Index(from, zoom) <= index <= Index(to, zoom)
  {
    forall part: real | from <= part <= to
      ensures Index(from, zoom) <= Index(part, zoom) <= Index(to, zoom)
    {
      IndexSpread(from, part, zoom);
      IndexSpread(part, to, zoom);
    }
    if Index(from, zoom) < index < Index(to, zoom) {
      var part := TileEdge(index, zoom);
      OffsetOrder(from, part, zoom);
      OffsetOrder(part, to, zoom);
      assert Index(part, zoom) == index;
    }
  }

  /** For points on the map, or east or south of it, to have an index is to lie on that tile. */
  lemma IndexExactlyOnTile(part: real, index: int, zoom: nat)
    requires part >= 0.0
    ensures Index(part, zoom) == index <==> OnTile(part, index, zoom)
  {
    IndexIsTile(part, zoom);
  }

  lemma TakesOnMap(from: real, to: real, index: int, zoom: nat)
    ensures 0.0 <= from ==> (Takes(from, to, index, zoom) <==> Crosses(from, to, index, zoom))
  {
    if 0.0 <= from {
      forall part: real | from <= part <= to
        ensures Index(part, zoom) == index <==> OnTile(part, index, zoom)
      {
        IndexExactlyOnTile(part, index, zoom);
      }
    }
  }

  /** For every box, the matrix has exactly the tiles that the points of the box have as indices, each at one
      place. */
  lemma MatrixCovers(p: Projection, box: ViewPort, zoom: nat, x: int, y: int)
    requires IsOrdered(p, box)
    ensures var t := TilesAt(p, box, zoom);
            && (Meets(p, box, x, y, zoom) <==>
                exists i, j :: 0 <= i < t.Rows() && 0 <= j < t.Columns() && TileAt(t, i, j) == (x, y))
            && forall i, j, k, l :: TileAt(t, i, j) == TileAt(t, k, l) ==> i == k && j == l
  {
    var t := TilesAt(p, box, zoom);
    ColumnOrdered(box.lonMin, box.lonMax);
    TakesIndices(Column(box.lonMin), Column(box.lonMax), x, zoom);
    TakesIndices(p.fraction(box.latMax), p.fraction(box.latMin), y, zoom);
    assert TileAt(t, y - t.yMin, x - t.xMin) == (x, y);
  }

  /** For a box in the square these are the tiles with a point of the box on them. */
  lemma MeetsOnMap(p: Projection, box: ViewPort, zoom: nat, x: int, y: int)
    requires InSquare(p, box)
    ensures Meets(p, box, x, y, zoom) <==>
            && Crosses(Column(box.lonMin), Column(box.lonMax), x, zoom)
            && Crosses(p.fraction(box.latMax), p.fraction(box.latMin), y, zoom)
  {
    ColumnOrdered(-180.0, box.lonMin);
    TakesOnMap(Column(box.lonMin), Column(box.lonMax), x, zoom);
    TakesOnMap(p.fraction(box.latMax), p.fraction(box.latMin), y, zoom);
  }

  /** All of the indices are those of tiles that there are exactly if the box stays within one tile of the west and
      north edges of the map, and short of the east and south edges. */
  lemma TilesExistExactlyWhen(p: Projection, box: ViewPort, zoom: nat)
    ensures var t := TilesAt(p, box, zoom);
            && (0 <= t.xMin && t.xMax < Across(zoom) <==>
                Offset(Column(box.lonMin), zoom) > -1.0 && box.lonMax < 180.0)
            && (0 <= t.yMin && t.yMax < Across(zoom) <==>
                Offset(p.fraction(box.latMax), zoom) > -1.0 && p.fraction(box.latMin) < 1.0)
  {
    IndexExists(Column(box.lonMin), zoom);
    IndexExists(Column(box.lonMax), zoom);
    IndexExists(p.fraction(box.latMax), zoom);
    IndexExists(p.fraction(box.latMin), zoom);
  }

  lemma IndexExists(part: real, zoom: nat)
    ensures 0 <= Index(part, zoom) <==> Offset(part, zoom) > -1.0
    ensures Index(part, zoom) < Across(zoom) <==> part < 1.0
  {
    OffsetOrder(1.0, part, zoom);
    assert Offset(1.0, zoom) == Across(zoom) as real;
  }

  /** The kilometre box of a report less than half its side from longitude 180 asks for a tile that there is not. */
  lemma KilometreAtAntimeridian(p: Projection, lat: real, lon: real, cosine: real, zoom: nat)
    requires cosine > 0.0
    ensures lon + KilometreDegrees(cosine) / 2.0 >= 180.0 <==>
            TilesAt(p, KilometreBox(lat, lon, cosine), zoom).xMax >= Across(zoom)
  {
    IndexExists(Column(KilometreBox(lat, lon, cosine).lonMax), zoom);
  }

  // ---------------------------------------------------------------- pixels

  function Tile2Lon(x: int, zoom: nat): real { x as real / Across(zoom) as real * 360.0 - 180.0 }

  function Tile2Lat(p: Projection, y: int, zoom: nat): real { p.latitude(y as real / Across(zoom) as real) }

  function TileBBox(p: Projection, tile: (int, int), zoom: nat): ViewPort {
    ViewPort(Tile2Lat(p, tile.1 + 1, zoom), Tile2Lon(tile.0, zoom), Tile2Lat(p, tile.1, zoom),
             Tile2Lon(tile.0 + 1, zoom))
  }

  /** The last row's first tile and the first row's last tile. */
  function SouthWest(t: Tiles): (int, int) { TileAt(t, t.Rows() - 1, 0) }

  function NorthEast(t: Tiles): (int, int) { TileAt(t, 0, t.Columns() - 1) }

  function PixelX(p: Projection, lon: real, t: Tiles, zoom: nat): real
    requires t.Columns() > 0
  {
    var west, east := TileBBox(p, SouthWest(t), zoom).lonMin, TileBBox(p, NorthEast(t), zoom).lonMax;
    LongitudesApart(t, zoom);
    (1.0 - (east - lon) / (east - west)) * TILE_SIZE as real * t.Columns() as real
  }

  function PixelY(p: Projection, lat: real, t: Tiles, zoom: nat): real
    requires t.Rows() > 0 && FallsSouth(p)
  {
    var south, north := TileBBox(p, SouthWest(t), zoom).latMin, TileBBox(p, NorthEast(t), zoom).latMax;
    LatitudesApart(p, t, zoom);
    (north - lat) / (north - south) * TILE_SIZE as real * t.Rows() as real
  }

  ghost predicate FallsSouth(p: Projection) { forall a, b | a < b :: p.latitude(b) < p.latitude(a) }

  lemma LongitudesApart(t: Tiles, zoom: nat)
    requires t.Columns() > 0
    ensures Tile2Lon(t.xMax + 1, zoom) - Tile2Lon(t.xMin, zoom) == t.Columns() as real / Across(zoom) as real * 360.0
    ensures Tile2Lon(t.xMin, zoom) < Tile2Lon(t.xMax + 1, zoom)
  {
    var n := Across(zoom) as real;
    assert (t.xMax + 1) as real / n - t.xMin as real / n == t.Columns() as real / n;
    assert t.Columns() as real / n > 0.0;
  }

  lemma LatitudesApart(p: Projection, t: Tiles, zoom: nat)
    requires t.Rows() > 0 && FallsSouth(p)
    ensures Tile2Lat(p, t.yMax + 1, zoom) < Tile2Lat(p, t.yMin, zoom)
  {
    var n := Across(zoom) as real;
    assert t.yMin as real / n < (t.yMax + 1) as real / n;
  }

  /** The column of pixels is exactly 256 times the distance from the west edge in tiles. */
  lemma PixelXIsTileOffset(p: Projection, lon: real, t: Tiles, zoom: nat)
    requires t.Columns() > 0
    ensures PixelX(p, lon, t, zoom) == TILE_SIZE as real * (Offset(Column(lon), zoom) - t.xMin as real)
  {
    LongitudesApart(t, zoom);
  }

  /** A point whose longitude is in the box is drawn in the image exactly if it is not west of the first tile; from
      longitude -180 on it always is, on the column of tiles it lies on. */
  lemma PointOnItsColumn(p: Projection, box: ViewPort, lon: real, zoom: nat)
    requires IsOrdered(p, box) && box.lonMin <= lon <= box.lonMax
    ensures var t := TilesAt(p, box, zoom);
            && t.Columns() > 0 && PixelX(p, lon, t, zoom) < (TILE_SIZE * t.Columns()) as real
            && (0.0 <= PixelX(p, lon, t, zoom) <==> Tile2Lon(t.xMin, zoom) <= lon)
            && (-180.0 <= lon ==>
                  && Tile2Lon(t.xMin, zoom) <= lon
                  && t.xMin + (PixelX(p, lon, t, zoom) / TILE_SIZE as real).Floor == Index(Column(lon), zoom))
  {
    var t := TilesAt(p, box, zoom);
    ColumnOrdered(box.lonMin, lon);
    ColumnOrdered(lon, box.lonMax);
    IndexSpread(Column(box.lonMin), Column(lon), zoom);
    IndexSpread(Column(lon), Column(box.lonMax), zoom);
    OffsetGrows(Column(box.lonMin), Column(lon), zoom);
    OffsetGrows(Column(lon), Column(box.lonMax), zoom);
    PixelXIsTileOffset(p, lon, t, zoom);
    WestEdge(t.xMin, lon, zoom);
    if -180.0 <= lon { IndexIsTile(Column(lon), zoom); }
  }

  lemma WestEdge(x: int, lon: real, zoom: nat)
    ensures Tile2Lon(x, zoom) <= lon <==> x as real <= Offset(Column(lon), zoom)
  {
    var part := x as real / Across(zoom) as real;
    assert Offset(part, zoom) == x as real;
    OffsetOrder(part, Column(lon), zoom);
  }

  /** Rows of pixels run from north to south over the height of the image. */
  lemma PixelYInImage(p: Projection, lat: real, t: Tiles, zoom: nat)
    requires t.Rows() > 0 && FallsSouth(p)
    ensures var height := (TILE_SIZE * t.Rows()) as real;
            && (lat == Tile2Lat(p, t.yMin, zoom) <==> PixelY(p, lat, t, zoom) == 0.0)
            && (lat == Tile2Lat(p, t.yMax + 1, zoom) <==> PixelY(p, lat, t, zoom) == height)
            && (Tile2Lat(p, t.yMax + 1, zoom) <= lat <= Tile2Lat(p, t.yMin, zoom) <==>
                0.0 <= PixelY(p, lat, t, zoom) <= height)
  {
    LatitudesApart(p, t, zoom);
    var north, south := Tile2Lat(p, t.yMin, zoom), Tile2Lat(p, t.yMax + 1, zoom);
    InPixels((north - lat) / (north - south), t.Rows());
    Stretch(north - lat, north - south, (TILE_SIZE * t.Rows()) as real, PixelY(p, lat, t, zoom));
  }

  /** Tile edges are read back: the latitude of the point's own place on the map is its latitude. */
  predicate ReadsBack(p: Projection, lat: real) { p.latitude(p.fraction(lat)) == lat }

  lemma NorthEdge(p: Projection, y: int, lat: real, zoom: nat)
    requires FallsSouth(p) && ReadsBack(p, lat)
    ensures lat <= Tile2Lat(p, y, zoom) <==> y as real <= Offset(p.fraction(lat), zoom)
    ensures lat == Tile2Lat(p, y, zoom) <==> y as real == Offset(p.fraction(lat), zoom)
  {
    var edge, part := y as real / Across(zoom) as real, p.fraction(lat);
    assert Offset(edge, zoom) == y as real;
    OffsetOrder(edge, part, zoom);
    OffsetOrder(part, edge, zoom);
    assert p.latitude(part) == lat;
    assert edge < part ==> p.latitude(part) < p.latitude(edge);
    assert part < edge ==> p.latitude(edge) < p.latitude(part);
  }

  /** Where the two directions of the projection undo each other, a point is drawn inside the image exactly if its
      place lies on the rows of tiles, and on an edge of the image exactly if it lies on the edge of the rows. */
  lemma PointOnTheRows(p: Projection, lat: real, t: Tiles, zoom: nat)
    requires t.Rows() > 0 && FallsSouth(p) && ReadsBack(p, lat)
    ensures var height, offset := (TILE_SIZE * t.Rows()) as real, Offset(p.fraction(lat), zoom);
            && (0.0 <= PixelY(p, lat, t, zoom) <= height <==> t.yMin as real <= offset <= (t.yMax + 1) as real)
            && (PixelY(p, lat, t, zoom) == 0.0 <==> offset == t.yMin as real)
            && (PixelY(p, lat, t, zoom) == height <==> offset == (t.yMax + 1) as real)
  {
    NorthEdge(p, t.yMin, lat, zoom);
    NorthEdge(p, t.yMax + 1, lat, zoom);
    PixelYInImage(p, lat, t, zoom);
  }

  /** So a point of the box that is not north of the map is drawn in the image of the box's tiles, above its last
      line. */
  lemma PointInItsRows(p: Projection, box: ViewPort, lat: real, zoom: nat)
    requires IsOrdered(p, box) && FallsSouth(p) && ReadsBack(p, lat) && 0.0 <= p.fraction(box.latMax)
    requires p.fraction(box.latMax) <= p.fraction(lat) <= p.fraction(box.latMin)
    ensures var t := TilesAt(p, box, zoom);
            t.Rows() > 0 && 0.0 <= PixelY(p, lat, t, zoom) < (TILE_SIZE * t.Rows()) as real
  {
    var t := TilesAt(p, box, zoom);
    IndexSpread(p.fraction(box.latMax), p.fraction(box.latMin), zoom);
    OffsetGrows(p.fraction(box.latMax), p.fraction(lat), zoom);
    OffsetGrows(p.fraction(lat), p.fraction(box.latMin), zoom);
    OffsetGrows(0.0, p.fraction(box.latMax), zoom);
    PointOnTheRows(p, lat, t, zoom);
  }

  /** Of two points the southern one is drawn lower. */
  lemma SouthIsLower(p: Projection, south: real, north: real, t: Tiles, zoom: nat)
    requires t.Rows() > 0 && FallsSouth(p) && south < north
    ensures PixelY(p, north, t, zoom) < PixelY(p, south, t, zoom)
  {
    LatitudesApart(p, t, zoom);
    var top, span := Tile2Lat(p, t.yMin, zoom), Tile2Lat(p, t.yMin, zoom) - Tile2Lat(p, t.yMax + 1, zoom);
    var a, b := (top - north) / span, (top - south) / span;
    assert (b - a) * span == north - south;
    assert b - a > 0.0;
    InPixels(a, t.Rows());
    InPixels(b, t.Rows());
    assert (b - a) * (TILE_SIZE * t.Rows()) as real > 0.0;
  }

  lemma InPixels(q: real, tiles: int)
    ensures q * TILE_SIZE as real * tiles as real == q * (TILE_SIZE * tiles) as real
  {
  }

  lemma Stretch(part: real, whole: real, size: real, r: real)
    requires whole > 0.0 && size > 0.0 && r == part / whole * size
    ensures r == 0.0 <==> part == 0.0
    ensures r == size <==> part == whole
    ensures 0.0 <= r <= size <==> 0.0 <= part <= whole
  {
    var q := part / whole;
    assert q * whole == part;
    assert q * size >= 0.0 <==> q >= 0.0;
    assert (q - 1.0) * size <= 0.0 <==> q <= 1.0;
    assert q >= 0.0 <==> part >= 0.0;
    assert (q - 1.0) * whole == part - whole;
    assert (q - 1.0) * whole <= 0.0 <==> q <= 1.0;
  }
}
