/**
  Where a tile is drawn, and how a view rectangle moves: the arithmetic of the
  viewer over the reals.
*/
module ViewMath {
  import opened Arithmetic
  import opened Pyramid
  import opened Results

  const MAX_VIEW_ZOOM := 4096.0

  datatype Rect = Rect(x: real, y: real, width: real, height: real)

  function FullViewRect(m: Manifest): Rect { Rect(0.0, 0.0, m.width as real, m.height as real) }

  /** Pixel p of a side of a level, in pixels of the original image. */
  function Original(p: int, level: int, full: int): real
    requires level != 0
  {
    (p as real / level as real) * full as real
  }

  /** A side of a level shown through a view: everything that fixes where its pixels land. */
  datatype Side = Side(level: int, full: int, viewStart: real, viewLength: real, imageStart: real, imageLength: real)

  function SideX(m: Manifest, z: int, image: Rect, view: Rect): Side
    requires 0 <= z < |m.levels|
  {
    Side(m.levels[z].width, m.width, view.x, view.width, image.x, image.width)
  }

  function SideY(m: Manifest, z: int, image: Rect, view: Rect): Side
    requires 0 <= z < |m.levels|
  {
    Side(m.levels[z].height, m.height, view.y, view.height, image.y, image.height)
  }

  /** Where the edge of pixel p lands on the canvas. */
  function Edge(s: Side, p: int): real
    requires s.level != 0 && s.viewLength != 0.0
  {
    s.imageStart + ((Original(p, s.level, s.full) - s.viewStart) / s.viewLength) * s.imageLength
  }

  /** How long the pixels from p on are on the canvas. */
  function Extent(s: Side, p: int, length: int): real
    requires s.level != 0 && s.viewLength != 0.0
  {
    ((Original(p + length, s.level, s.full) - Original(p, s.level, s.full)) / s.viewLength) * s.imageLength
  }

  /** The rectangle of the canvas that a tile is drawn into; None if its level does not exist. */
  function TileDestination(m: Manifest, image: Rect, h: Header, view: Rect): Option<Rect>
    requires view.width != 0.0 && view.height != 0.0
    requires forall i | 0 <= i < |m.levels| :: m.levels[i].width != 0 && m.levels[i].height != 0
  {
    if h.z < 0 || h.z >= |m.levels| then None
    else
      var x, y := h.x * m.tileSize, h.y * m.tileSize;
      var across, down := SideX(m, h.z, image, view), SideY(m, h.z, image, view);
      Some(Rect(Edge(across, x), Edge(down, y), Extent(across, x, h.w), Extent(down, y, h.h)))
  }

  ghost predicate Shown(s: Side) {
    s.level >= 1 && s.full >= 1 && s.viewLength > 0.0 && s.imageLength > 0.0
  }

  /** The view lies within the image. */
  ghost predicate Within(s: Side) {
    Shown(s) && 0.0 <= s.viewStart && s.viewStart + s.viewLength <= s.full as real
  }

  /** How far apart two neighbouring pixel edges land. */
  function Scale(s: Side): real
    requires s.level != 0 && s.viewLength != 0.0
  {
    (1.0 / s.level as real) * s.full as real / s.viewLength * s.imageLength
  }

  lemma EdgeIsAffine(s: Side, p: int)
    requires Shown(s)
    ensures Edge(s, p) == Edge(s, 0) + p as real * Scale(s)
  {
    var l, f, v, i := s.level as real, s.full as real, s.viewLength, s.imageLength;
    var u := (p as real / l) * f;
    assert p as real / l == p as real * (1.0 / l);
    SplitDifference(u, s.viewStart, v, i);
    SplitDifference((0.0 / l) * f, s.viewStart, v, i);
    Regroup(p as real, 1.0 / l, f, v, i);
  }

  lemma SplitDifference(u: real, a: real, v: real, i: real)
    requires v > 0.0
    ensures ((u - a) / v) * i == (u / v) * i - (a / v) * i
  {
    assert (u - a) / v == u / v - a / v;
  }

  lemma Regroup(p: real, r: real, f: real, v: real, i: real)
    requires v > 0.0
    ensures ((p * r) * f) / v * i == p * (r * f / v * i)
  {
    assert ((p * r) * f) / v == p * ((r * f) / v);
  }

  lemma ScaleIsPositive(s: Side)
    requires Shown(s)
    ensures Scale(s) > 0.0
  {
    var l, f := s.level as real, s.full as real;
    assert 1.0 / l > 0.0;
    assert (1.0 / l) * f > 0.0;
    assert (1.0 / l) * f / s.viewLength > 0.0;
  }

  lemma EdgesAreOrdered(s: Side, p: int, q: int)
    requires Shown(s)
    ensures p <= q ==> Edge(s, p) <= Edge(s, q)
    ensures p < q ==> Edge(s, p) < Edge(s, q)
  {
    EdgeIsAffine(s, p);
    EdgeIsAffine(s, q);
    ScaleIsPositive(s);
    if p <= q { assert (q as real - p as real) * Scale(s) >= 0.0; }
    if p < q { assert (q as real - p as real) * Scale(s) > 0.0; }
  }

  // ----- tile destinations -----

  ghost predicate GoodView(m: Manifest, view: Rect) {
    && view.width > 0.0 && view.height > 0.0
    && 0.0 <= view.x && view.x + view.width <= m.width as real
    && 0.0 <= view.y && view.y + view.height <= m.height as real
  }

  ghost predicate GoodImage(image: Rect) { image.width > 0.0 && image.height > 0.0 }

  /** A start and its extent reach from edge to edge. */
  lemma ExtentReaches(s: Side, p: int, length: int)
    requires Shown(s)
    ensures Edge(s, p) + Extent(s, p, length) == Edge(s, p + length)
  {
    JoinDifference(Original(p, s.level, s.full), Original(p + length, s.level, s.full),
                   s.viewStart, s.viewLength, s.imageLength);
  }

  /** A destination reaches exactly from the edge of the tile's first pixel to the edge past its last one. */
  lemma DestinationEdges(m: Manifest, image: Rect, h: Header, view: Rect)
    requires Accepted(m) && Fits(m, h) && view.width > 0.0 && view.height > 0.0 && GoodImage(image)
    ensures TileDestination(m, image, h, view).Some?
    ensures
      var d := TileDestination(m, image, h, view).value;
      && d.x == Edge(SideX(m, h.z, image, view), h.x * m.tileSize)
      && d.y == Edge(SideY(m, h.z, image, view), h.y * m.tileSize)
      && d.x + d.width == Edge(SideX(m, h.z, image, view), h.x * m.tileSize + h.w)
      && d.y + d.height == Edge(SideY(m, h.z, image, view), h.y * m.tileSize + h.h)
  {
    ExtentReaches(SideX(m, h.z, image, view), h.x * m.tileSize, h.w);
    ExtentReaches(SideY(m, h.z, image, view), h.y * m.tileSize, h.h);
  }

  lemma JoinDifference(u0: real, u1: real, a: real, v: real, i: real)
    requires v > 0.0
    ensures ((u0 - a) / v) * i + ((u1 - u0) / v) * i == ((u1 - a) / v) * i
  {
    assert (u0 - a) / v + (u1 - u0) / v == (u1 - a) / v;
  }

  /** Neighbouring destinations share their edge exactly: no seam and no overlap. */
  lemma NeighboursShareEdges(m: Manifest, image: Rect, g: Header, h: Header, view: Rect)
    requires Accepted(m) && Fits(m, g) && Fits(m, h) && g.z == h.z
    requires view.width > 0.0 && view.height > 0.0 && GoodImage(image)
    ensures
      var d, e := TileDestination(m, image, g, view), TileDestination(m, image, h, view);
      && d.Some? && e.Some?
      && (h.x == g.x + 1 ==> d.value.x + d.value.width == e.value.x)
      && (h.y == g.y + 1 ==> d.value.y + d.value.height == e.value.y)
  {
    hide TileDestination, Edge, SideX, SideY;
    DestinationEdges(m, image, g, view);
    DestinationEdges(m, image, h, view);
    if h.x == g.x + 1 {
      SpanInside(m.levels[g.z].width, m.tileSize, g.x);
      assert h.x * m.tileSize == g.x * m.tileSize + m.tileSize;
    }
    if h.y == g.y + 1 {
      SpanInside(m.levels[g.z].height, m.tileSize, g.y);
      assert h.y * m.tileSize == g.y * m.tileSize + m.tileSize;
    }
  }

  ghost predicate Holds(d: Rect, u: real, v: real) {
    d.x <= u < d.x + d.width && d.y <= v < d.y + d.height
  }

  /** Whether the tile h of m, seen through this view, is drawn over the point (u, v) of the canvas. */
  ghost predicate DrawnOver(m: Manifest, image: Rect, h: Header, view: Rect, u: real, v: real) {
    && Accepted(m) && Fits(m, h) && view.width > 0.0 && view.height > 0.0
    && TileDestination(m, image, h, view).Some?
    && Holds(TileDestination(m, image, h, view).value, u, v)
  }

  /** The pixel whose interval of the canvas holds u. */
  lemma {:induction false} PixelUnder(s: Side, u: real, from: nat) returns (p: nat)
    requires Shown(s) && from < s.level && Edge(s, from) <= u < Edge(s, s.level)
    ensures p < s.level && Edge(s, p) <= u < Edge(s, p + 1)
    decreases s.level - from
  {
    if u < Edge(s, from + 1) { p := from; } else { p := PixelUnder(s, u, from + 1); }
  }

  /** Through a view inside the image, the image's pixels cover the whole of the image rectangle. */
  lemma EndsCover(s: Side)
    requires Within(s)
    ensures Edge(s, 0) <= s.imageStart && s.imageStart + s.imageLength <= Edge(s, s.level)
    ensures s.viewStart == 0.0 && s.viewLength == s.full as real ==>
              Edge(s, 0) == s.imageStart && Edge(s, s.level) == s.imageStart + s.imageLength
  {
    var l, f := s.level as real, s.full as real;
    assert Original(0, s.level, s.full) == 0.0;
    assert l / l == 1.0;
    assert Original(s.level, s.level, s.full) == f;
    FractionBounds(0.0 - s.viewStart, s.viewLength, s.imageLength);
    FractionBounds(f - s.viewStart, s.viewLength, s.imageLength);
  }

  lemma FractionBounds(n: real, v: real, i: real)
    requires v > 0.0 && i > 0.0
    ensures n <= 0.0 ==> (n / v) * i <= 0.0
    ensures n >= v ==> (n / v) * i >= i
    ensures n == 0.0 ==> (n / v) * i == 0.0
    ensures n == v ==> (n / v) * i == i
  {
    if n <= 0.0 { assert n / v <= 0.0; }
    if n >= v { assert n / v >= 1.0; }
  }

  /** Along one side: the tile of that pixel is drawn over u. */
  lemma TileUnder(s: Side, tile: int, u: real) returns (p: nat)
    requires Within(s) && tile > 0 && s.imageStart <= u < s.imageStart + s.imageLength
    ensures p < s.level
    ensures Edge(s, p / tile * tile) <= u < Edge(s, p / tile * tile + Span(s.level, tile, p / tile))
  {
    EndsCover(s);
    p := PixelUnder(s, u, 0);
    SpanOf(s.level, tile, p);
    EdgesAreOrdered(s, p / tile * tile, p);
    EdgesAreOrdered(s, p + 1, p / tile * tile + Span(s.level, tile, p / tile));
  }

  /** Every point of the image rectangle is drawn over by an accepted tile of every level. */
  lemma CanvasIsCovered(m: Manifest, image: Rect, z: int, view: Rect, u: real, v: real) returns (h: Header)
    requires Accepted(m) && 0 <= z < |m.levels| && GoodImage(image) && GoodView(m, view)
    requires Holds(image, u, v)
    ensures h.z == z && DrawnOver(m, image, h, view, u, v)
  {
    var px := TileUnder(SideX(m, z, image, view), m.tileSize, u);
    var py := TileUnder(SideY(m, z, image, view), m.tileSize, v);
    h := TileAt(m, z, px, py);
    EveryPixelIsCovered(m, z, px, py);
    DestinationEdges(m, image, h, view);
  }

  /** Two tiles of one level that are drawn over the same point are the same tile. */
  lemma DestinationsDoNotOverlap(m: Manifest, image: Rect, g: Header, h: Header, view: Rect, u: real, v: real)
    requires GoodImage(image) && g.z == h.z
    requires DrawnOver(m, image, g, view, u, v) && DrawnOver(m, image, h, view, u, v)
    ensures g.x == h.x && g.y == h.y && g.w == h.w && g.h == h.h
  {
    DestinationEdges(m, image, g, view);
    DestinationEdges(m, image, h, view);
    TilesInside(m, g);
    TilesInside(m, h);
    OneTilePerPoint(SideX(m, g.z, image, view), m.tileSize, g.x, g.w, h.x, h.w, u);
    OneTilePerPoint(SideY(m, g.z, image, view), m.tileSize, g.y, g.h, h.y, h.h, v);
  }

  lemma OneTilePerPoint(s: Side, tile: int, a: int, aw: int, b: int, bw: int, u: real)
    requires Shown(s) && 0 < aw <= tile && 0 < bw <= tile
    requires Edge(s, a * tile) <= u < Edge(s, a * tile + aw)
    requires Edge(s, b * tile) <= u < Edge(s, b * tile + bw)
    ensures a == b
  {
    EdgesAreOrdered(s, b * tile, a * tile + aw);
    EdgesAreOrdered(s, a * tile, b * tile + bw);
    EdgesAreOrdered(s, a * tile + aw, b * tile);
    EdgesAreOrdered(s, b * tile + bw, a * tile);
    assert (a - b) * tile == a * tile - b * tile;
    SmallMultiple(a - b, tile);
  }

  /** Under the full view no tile of any level is drawn outside the image rectangle. */
  lemma FullViewStaysInside(m: Manifest, image: Rect, h: Header)
    requires Accepted(m) && Fits(m, h) && GoodImage(image)
    ensures
      var d := TileDestination(m, image, h, FullViewRect(m));
      && d.Some?
      && image.x <= d.value.x && d.value.x + d.value.width <= image.x + image.width
      && image.y <= d.value.y && d.value.y + d.value.height <= image.y + image.height
  {
    var view := FullViewRect(m);
    var sx, sy := SideX(m, h.z, image, view), SideY(m, h.z, image, view);
    DestinationEdges(m, image, h, view);
    TilesInside(m, h);
    EndsCover(sx);
    EndsCover(sy);
    EdgesAreOrdered(sx, 0, h.x * m.tileSize);
    EdgesAreOrdered(sy, 0, h.y * m.tileSize);
    EdgesAreOrdered(sx, h.x * m.tileSize + h.w, m.levels[h.z].width);
    EdgesAreOrdered(sy, h.y * m.tileSize + h.h, m.levels[h.z].height);
  }

  // ----- moving the view -----

  function RMin(a: real, b: real): real { if a <= b then a else b }

  function RMax(a: real, b: real): real { if a >= b then a else b }

  function Clamp(value: real, minimum: real, maximum: real): real { RMin(maximum, RMax(minimum, value)) }

  function ClampViewRect(m: Manifest, r: Rect): Rect {
    var width, height := Clamp(r.width, 1.0, m.width as real), Clamp(r.height, 1.0, m.height as real);
    Rect(Clamp(r.x, 0.0, m.width as real - width), Clamp(r.y, 0.0, m.height as real - height), width, height)
  }

  /** Where a point of the image shows, as a fraction of the extent of a view. */
  function FractionOf(start: real, length: real, u: real): real
    requires length != 0.0
  {
    (u - start) / length
  }

  /** How short a side a zoom can make. */
  function Shortest(full: real): real { RMax(1.0, full / MAX_VIEW_ZOOM) }

  /** One side of a zoom: how long the view becomes, and where it starts. */
  function ZoomedLength(full: real, length: real, factor: real): real {
    Clamp(length * factor, Shortest(full), full)
  }

  function ZoomedStart(start: real, length: real, anchor: real, zoomed: real): real
    requires length != 0.0
  {
    anchor - zoomed * Clamp(FractionOf(start, length, anchor), 0.0, 1.0)
  }

  /** None is the exception for a factor that is not positive. */
  function ZoomViewRect(m: Manifest, r: Rect, anchorX: real, anchorY: real, factor: real): Option<Rect>
    requires r.width != 0.0 && r.height != 0.0
  {
    if factor <= 0.0 then None
    else
      var width := ZoomedLength(m.width as real, r.width, factor);
      var height := ZoomedLength(m.height as real, r.height, factor);
      Some(ClampViewRect(m, Rect(
        ZoomedStart(r.x, r.width, anchorX, width), ZoomedStart(r.y, r.height, anchorY, height), width, height)))
  }

  function PanViewRect(m: Manifest, r: Rect, deltaX: real, deltaY: real): Rect {
    ClampViewRect(m, r.(x := r.x + deltaX, y := r.y + deltaY))
  }

  /** JavaScript's Math.round. */
  function Round(r: real): int { (r + 0.5).Floor }

  datatype IntRect = IntRect(x: int, y: int, width: int, height: int)

  function IntegerViewRect(m: Manifest, r: Rect): IntRect {
    var width := Max(1, Min(m.width, Round(r.width)));
    var height := Max(1, Min(m.height, Round(r.height)));
    IntRect(Max(0, Min(m.width - width, Round(r.x))), Max(0, Min(m.height - height, Round(r.y))), width, height)
  }

  function ToRect(r: IntRect): Rect { Rect(r.x as real, r.y as real, r.width as real, r.height as real) }

  /** Whatever is panned or zoomed, the view stays a part of the image, and is left alone if it already is. */
  lemma ClampedViewIsGood(m: Manifest, r: Rect)
    requires m.width >= 1 && m.height >= 1
    ensures GoodView(m, ClampViewRect(m, r)) && ClampViewRect(m, r).width >= 1.0 && ClampViewRect(m, r).height >= 1.0
    ensures ClampViewRect(m, r) == r <==> GoodView(m, r) && r.width >= 1.0 && r.height >= 1.0
  {
  }

  /** The view sent to the server is a non-empty integer part of the image, and rounding it again changes nothing. */
  lemma IntegerViewIsGood(m: Manifest, r: Rect)
    requires m.width >= 1 && m.height >= 1
    ensures
      var i := IntegerViewRect(m, r);
      && GoodView(m, ToRect(i)) && i.width >= 1 && i.height >= 1
      && IntegerViewRect(m, ToRect(i)) == i
  {
  }

  lemma LengthInRange(full: real, length: real, factor: real)
    requires full >= 1.0
    ensures 1.0 <= ZoomedLength(full, length, factor) <= full
  {
  }

  lemma UnitFraction(start: real, length: real, u: real)
    requires length > 0.0 && start <= u <= start + length
    ensures 0.0 <= FractionOf(start, length, u) <= 1.0
    ensures FractionOf(start, length, u) * length == u - start
  {
  }

  lemma FractionMeansStart(u: real, start: real, length: real, f: real, wanted: real)
    requires length > 0.0 && wanted == u - length * f
    ensures FractionOf(start, length, u) == f <==> start == wanted
  {
    var g := FractionOf(start, length, u);
    assert g * length == u - start;
    if start == wanted { assert (g - f) * length == 0.0; }
  }

  /**
    One side of a zoom with the cursor a in the view. The cursor keeps its place
    in the view exactly when the new view, put around it, does not stick out.
  */
  lemma SideKeepsPoint(full: real, start: real, length: real, a: real, w: real)
    requires length > 0.0 && start <= a <= start + length && 0.0 < w <= full
    ensures
      var f := FractionOf(start, length, a);
      FractionOf(Clamp(ZoomedStart(start, length, a, w), 0.0, full - w), w, a) == f <==> 0.0 <= a - w * f <= full - w
  {
    UnitFraction(start, length, a);
    var f := FractionOf(start, length, a);
    var wanted := a - w * f;
    assert ZoomedStart(start, length, a, w) == wanted;
    FractionMeansStart(a, Clamp(wanted, 0.0, full - w), w, f, wanted);
  }

  /** A side that does not grow never sticks out. */
  lemma ShrinkingStaysIn(full: real, start: real, length: real, a: real, w: real)
    requires length > 0.0 && 0.0 <= start && start + length <= full && start <= a <= start + length && 0.0 < w <= length
    ensures 0.0 <= a - w * FractionOf(start, length, a) <= full - w
  {
    var f := FractionOf(start, length, a);
    UnitFraction(start, length, a);
    ProductIsNotNegative(length - w, f);
    ProductIsNotNegative(length - w, 1.0 - f);
    assert (length - w) * f == length * f - w * f;
    assert (length - w) * (1.0 - f) == length - w - (length - w) * f;
  }

  lemma ProductIsNotNegative(a: real, b: real)
    requires a >= 0.0 && b >= 0.0
    ensures a * b >= 0.0
  {
  }

  /** So zooming in always keeps the point under the cursor. */
  lemma ZoomInKeepsPoint(full: real, start: real, length: real, a: real, w: real)
    requires length > 0.0 && 0.0 <= start && start + length <= full && start <= a <= start + length && 0.0 < w <= length
    ensures FractionOf(Clamp(ZoomedStart(start, length, a, w), 0.0, full - w), w, a) == FractionOf(start, length, a)
  {
    ShrinkingStaysIn(full, start, length, a, w);
    SideKeepsPoint(full, start, length, a, w);
  }

  /** What a zoom returns, side by side: the length the factor asks for, and the start pushed back into the image. */
  ghost predicate Zoomed(m: Manifest, r: Rect, ax: real, ay: real, factor: real, z: Rect)
    requires r.width > 0.0 && r.height > 0.0
  {
    && z.width == ZoomedLength(m.width as real, r.width, factor)
    && z.height == ZoomedLength(m.height as real, r.height, factor)
    && z.x == Clamp(ZoomedStart(r.x, r.width, ax, z.width), 0.0, m.width as real - z.width)
    && z.y == Clamp(ZoomedStart(r.y, r.height, ay, z.height), 0.0, m.height as real - z.height)
  }

  lemma ZoomBySides(m: Manifest, r: Rect, ax: real, ay: real, factor: real)
    requires m.width >= 1 && m.height >= 1 && GoodView(m, r) && factor > 0.0
    ensures ZoomViewRect(m, r, ax, ay, factor).Some?
    ensures Zoomed(m, r, ax, ay, factor, ZoomViewRect(m, r, ax, ay, factor).value)
    ensures 1.0 <= ZoomedLength(m.width as real, r.width, factor) <= m.width as real
    ensures 1.0 <= ZoomedLength(m.height as real, r.height, factor) <= m.height as real
  {
    LengthInRange(m.width as real, r.width, factor);
    LengthInRange(m.height as real, r.height, factor);
  }

  ghost predicate Inside(r: Rect, ax: real, ay: real) {
    r.x <= ax <= r.x + r.width && r.y <= ay <= r.y + r.height
  }

  /** The point (ax, ay) of the image is as far along both sides of z as of r. */
  ghost predicate KeepsPoint(r: Rect, z: Rect, ax: real, ay: real)
    requires r.width > 0.0 && r.height > 0.0 && z.width > 0.0 && z.height > 0.0
  {
    FractionOf(z.x, z.width, ax) == FractionOf(r.x, r.width, ax) &&
    FractionOf(z.y, z.height, ay) == FractionOf(r.y, r.height, ay)
  }

  /**
    Any zoom keeps the point under the cursor exactly when the new view, put around it, fits the image on
    both sides.
  */
  lemma ZoomKeepsPointIff(m: Manifest, r: Rect, ax: real, ay: real, factor: real)
    requires m.width >= 1 && m.height >= 1 && GoodView(m, r) && Inside(r, ax, ay) && factor > 0.0
    ensures
      var zoomed := ZoomViewRect(m, r, ax, ay, factor);
      && zoomed.Some? && zoomed.value.width > 0.0 && zoomed.value.height > 0.0
      && var z := zoomed.value;
         KeepsPoint(r, z, ax, ay) <==>
           && 0.0 <= ax - z.width * FractionOf(r.x, r.width, ax) <= m.width as real - z.width
           && 0.0 <= ay - z.height * FractionOf(r.y, r.height, ay) <= m.height as real - z.height
  {
    hide ZoomViewRect, ZoomedLength, FractionOf, Clamp, ZoomedStart;
    ZoomBySides(m, r, ax, ay, factor);
    var z := ZoomViewRect(m, r, ax, ay, factor).value;
    SideKeepsPoint(m.width as real, r.x, r.width, ax, z.width);
    SideKeepsPoint(m.height as real, r.y, r.height, ay, z.height);
  }

  lemma ZoomedInIsShorter(full: real, length: real, factor: real)
    requires full >= 1.0 && Shortest(full) <= length <= full && 0.0 < factor <= 1.0
    ensures ZoomedLength(full, length, factor) <= length
  {
    ProductIsNotNegative(length, 1.0 - factor);
  }

  /** Zooming in keeps the point under the cursor, from every view that is no narrower than zooming allows. */
  lemma ZoomInKeepsCursor(m: Manifest, r: Rect, ax: real, ay: real, factor: real)
    requires m.width >= 1 && m.height >= 1 && GoodView(m, r) && Inside(r, ax, ay) && 0.0 < factor <= 1.0
    requires r.width >= Shortest(m.width as real) && r.height >= Shortest(m.height as real)
    ensures
      var zoomed := ZoomViewRect(m, r, ax, ay, factor);
      && zoomed.Some? && zoomed.value.width > 0.0 && zoomed.value.height > 0.0
      && KeepsPoint(r, zoomed.value, ax, ay)
  {
    hide ZoomViewRect, ZoomedLength, FractionOf, Clamp, ZoomedStart, Shortest;
    ZoomBySides(m, r, ax, ay, factor);
    var z := ZoomViewRect(m, r, ax, ay, factor).value;
    ZoomedInIsShorter(m.width as real, r.width, factor);
    ZoomedInIsShorter(m.height as real, r.height, factor);
    ZoomInKeepsPoint(m.width as real, r.x, r.width, ax, z.width);
    ZoomInKeepsPoint(m.height as real, r.y, r.height, ay, z.height);
  }

  /** Panning keeps the size of a view, and moves it as asked as far as the image goes, on each side apart. */
  lemma PanMoves(m: Manifest, r: Rect, dx: real, dy: real)
    requires GoodView(m, r) && r.width >= 1.0 && r.height >= 1.0
    ensures
      var p := PanViewRect(m, r, dx, dy);
      && GoodView(m, p) && p.width == r.width && p.height == r.height
      && p.x - r.x == Clamp(dx, -r.x, m.width as real - r.width - r.x)
      && p.y - r.y == Clamp(dy, -r.y, m.height as real - r.height - r.y)
  {
  }
}
