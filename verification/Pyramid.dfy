/**
  Image pyramids and the tiles of their levels: what MANIFEST must say to be
  accepted, and which TILE headers fit an accepted manifest.
*/
module Pyramid {
  import opened Arithmetic
  import opened Results

  const TILE_SIZE := 256

  datatype Level = Level(z: int, width: int, height: int)

  datatype Manifest = Manifest(
    epoch: int, imageId: string, imageVersion: string, width: int, height: int, levels: seq<Level>, tileSize: int)

  datatype Header = Header(
    deliveryId: int, epoch: int, imageId: string, imageVersion: string,
    z: int, x: int, y: int, w: int, h: int, payloadBytes: int, retry: Option<int>)

  datatype ManifestError =
    | BadField | OtherEpoch | OtherImage | BadVersion | BadLevels | FirstLevelTooLarge | LastLevelWrong | NotAPyramid

  datatype TileError = OtherManifest | NoSuchLevel | OutsideLevel | WrongSize

  function CeilDiv(a: int, b: int): int
    requires b > 0
  {
    (a + b - 1) / b
  }

  function Pow2(k: nat): (p: int)
    ensures p >= 1
  {
    if k == 0 then 1 else 2 * Pow2(k - 1)
  }

  predicate IntBetween(n: int, lo: int, hi: int) { lo <= n <= hi }

  /** v, a digit from 1 to 9, and at most nine more digits. */
  predicate IsVersion(s: string) {
    && 2 <= |s| <= 11 && s[0] == 'v' && '1' <= s[1] <= '9'
    && forall i | 2 <= i < |s| :: '0' <= s[i] <= '9'
  }

  predicate LevelsAreNumbered(levels: seq<Level>) {
    forall i | 0 <= i < |levels| ::
      && levels[i].z == i && i <= 63
      && IntBetween(levels[i].width, 1, MAX_INT) && IntBetween(levels[i].height, 1, MAX_INT)
  }

  /** The check of the source's loop: every level is the image divided by a power of two, rounded up. */
  predicate IsPyramid(m: Manifest) {
    forall i | 0 <= i < |m.levels| ::
      && m.levels[i].width == CeilDiv(m.width, Pow2(|m.levels| - 1 - i))
      && m.levels[i].height == CeilDiv(m.height, Pow2(|m.levels| - 1 - i))
  }

  /** A MANIFEST whose JSON fields have been read, checked in the order of the source. */
  function ParseManifest(m: Manifest, imageIdExpected: string, epochExpected: int): Result<Manifest, ManifestError> {
    if !IntBetween(m.epoch, 1, MAX_INT) || !IntBetween(|m.imageId|, 1, 64)
       || !IntBetween(|m.imageVersion|, 1, 11) then Err(BadField)
    else if m.epoch != epochExpected then Err(OtherEpoch)
    else if m.imageId != imageIdExpected then Err(OtherImage)
    else if !IsVersion(m.imageVersion) then Err(BadVersion)
    else if !IntBetween(m.width, 1, MAX_INT) || !IntBetween(m.height, 1, MAX_INT)
            || m.tileSize != TILE_SIZE then Err(BadField)
    else if !IntBetween(|m.levels|, 1, 64) || !LevelsAreNumbered(m.levels) then Err(BadLevels)
    else if m.levels[0].width > m.tileSize || m.levels[0].height > m.tileSize then Err(FirstLevelTooLarge)
    else if m.levels[|m.levels| - 1].width != m.width
            || m.levels[|m.levels| - 1].height != m.height then Err(LastLevelWrong)
    else if !IsPyramid(m) then Err(NotAPyramid)
    else Ok(m)
  }

  /** A manifest that some MANIFEST message was accepted as. */
  predicate Accepted(m: Manifest) {
    ParseManifest(m, m.imageId, m.epoch).Ok?
  }

  function Columns(m: Manifest, z: int): int
    requires 0 <= z < |m.levels| && m.tileSize > 0
  {
    CeilDiv(m.levels[z].width, m.tileSize)
  }

  function Rows(m: Manifest, z: int): int
    requires 0 <= z < |m.levels| && m.tileSize > 0
  {
    CeilDiv(m.levels[z].height, m.tileSize)
  }

  /** The length of tile k along a side: whole, or what is left at the edge. */
  function Span(size: int, tile: int, k: int): int { Min(tile, size - k * tile) }

  function ValidateTile(h: Header, m: Manifest): Result<Header, TileError>
    requires m.tileSize > 0
  {
    if h.imageId != m.imageId || h.imageVersion != m.imageVersion then Err(OtherManifest)
    else if h.z < 0 || h.z >= |m.levels| then Err(NoSuchLevel)
    else if h.x >= Columns(m, h.z) || h.y >= Rows(m, h.z) then Err(OutsideLevel)
    else if h.w != Span(m.levels[h.z].width, m.tileSize, h.x)
            || h.h != Span(m.levels[h.z].height, m.tileSize, h.y) then Err(WrongSize)
    else Ok(h)
  }

  /** The ranges parseTileHeader has already enforced. */
  predicate IsTileHeader(h: Header) {
    && IntBetween(h.deliveryId, 1, MAX_INT) && IntBetween(h.epoch, 1, MAX_INT)
    && IntBetween(h.z, 0, 63) && IntBetween(h.x, 0, MAX_INT) && IntBetween(h.y, 0, MAX_INT)
    && IntBetween(h.w, 1, 256) && IntBetween(h.h, 1, 256) && IntBetween(h.payloadBytes, 1, 262_144)
    && (h.retry.Some? ==> IntBetween(h.retry.value, 1, 2))
  }

  // ----- the fast form of the pyramid is the simple one -----

  /** The simple form: the last level is the image, and each level is the next one halved, rounded up. */
  ghost predicate HalvesDown(m: Manifest) {
    && |m.levels| >= 1
    && m.levels[|m.levels| - 1].width == m.width && m.levels[|m.levels| - 1].height == m.height
    && forall i | 0 <= i < |m.levels| - 1 ::
         && m.levels[i].width == CeilDiv(m.levels[i + 1].width, 2)
         && m.levels[i].height == CeilDiv(m.levels[i + 1].height, 2)
  }

  lemma CeilDivIs(a: int, b: int, c: int)
    requires b > 0
    ensures CeilDiv(a, b) == c <==> (c - 1) * b < a <= c * b
  {
    var d := (a + b - 1) / b;
    assert d * b <= a + b - 1 < d * b + b;
    assert (d - 1) * b == d * b - b;
    if (c - 1) * b < a <= c * b { SameMultiple(c, d, b, a); }
  }

  lemma SameMultiple(c: int, d: int, b: int, a: int)
    requires b > 0 && (c - 1) * b < a <= c * b && (d - 1) * b < a <= d * b
    ensures c == d
  {
    assert (c - d) * b == c * b - d * b;
    assert (c - 1) * b == c * b - b && (d - 1) * b == d * b - b;
    SmallMultiple(c - d, b);
  }

  /** Halving a rounded-up quotient once more is dividing by twice as much. */
  lemma CeilDivHalves(a: int, b: int)
    requires b > 0
    ensures CeilDiv(a, 2 * b) == CeilDiv(CeilDiv(a, b), 2)
  {
    var c := CeilDiv(a, b);
    var h := CeilDiv(c, 2);
    CeilDivIs(a, b, c);
    CeilDivIs(c, 2, h);
    assert 2 * h - 2 <= c - 1 && c <= 2 * h;
    assert (2 * h - 2) * b <= (c - 1) * b && c * b <= (2 * h) * b;
    assert (h - 1) * (2 * b) == (2 * h - 2) * b && h * (2 * b) == (2 * h) * b;
    CeilDivIs(a, 2 * b, h);
  }

  lemma {:induction false} HalvingReaches(m: Manifest, i: nat)
    requires HalvesDown(m) && i < |m.levels|
    ensures m.levels[i].width == CeilDiv(m.width, Pow2(|m.levels| - 1 - i))
    ensures m.levels[i].height == CeilDiv(m.height, Pow2(|m.levels| - 1 - i))
    decreases |m.levels| - i
  {
    if i + 1 < |m.levels| {
      HalvingReaches(m, i + 1);
      var p := Pow2(|m.levels| - 2 - i);
      assert Pow2(|m.levels| - 1 - i) == 2 * p;
      CeilDivHalves(m.width, p);
      CeilDivHalves(m.height, p);
    }
  }

  /** Dividing by powers of two and halving level by level accept exactly the same manifests. */
  lemma PyramidIsHalving(m: Manifest)
    requires |m.levels| >= 1
    ensures IsPyramid(m) <==> HalvesDown(m)
  {
    var last := |m.levels| - 1;
    if HalvesDown(m) {
      forall i | 0 <= i < |m.levels|
        ensures m.levels[i].width == CeilDiv(m.width, Pow2(last - i))
        ensures m.levels[i].height == CeilDiv(m.height, Pow2(last - i))
      {
        HalvingReaches(m, i);
      }
    }
    if IsPyramid(m) {
      assert Pow2(last - last) == 1;
      forall i | 0 <= i < last
        ensures m.levels[i].width == CeilDiv(m.levels[i + 1].width, 2)
        ensures m.levels[i].height == CeilDiv(m.levels[i + 1].height, 2)
      {
        assert Pow2(last - i) == 2 * Pow2(last - (i + 1));
        CeilDivHalves(m.width, Pow2(last - (i + 1)));
        CeilDivHalves(m.height, Pow2(last - (i + 1)));
      }
    }
  }

  /** A coarser level is never larger than a finer one. */
  lemma {:induction false} LevelsGrow(m: Manifest, i: nat, j: nat)
    requires Accepted(m) && i <= j < |m.levels|
    ensures m.levels[i].width <= m.levels[j].width && m.levels[i].height <= m.levels[j].height
    decreases j - i
  {
    if i < j {
      LevelsGrow(m, i + 1, j);
      PyramidIsHalving(m);
    }
  }

  // ----- tiles partition a level -----

  /** The headers accepted for level z of m: right coordinates and exactly the right size. */
  ghost predicate Fits(m: Manifest, h: Header) {
    m.tileSize > 0 && IsTileHeader(h) && ValidateTile(h, m).Ok?
  }

  ghost predicate Covers(m: Manifest, h: Header, px: int, py: int) {
    && h.x * m.tileSize <= px < h.x * m.tileSize + h.w
    && h.y * m.tileSize <= py < h.y * m.tileSize + h.h
  }

  /** Along one side: spans are never empty, never too long, and stay inside. */
  lemma SpanInside(size: int, tile: int, k: int)
    requires tile > 0 && size >= 1 && 0 <= k < CeilDiv(size, tile)
    ensures 1 <= Span(size, tile, k) <= tile
    ensures 0 <= k * tile && k * tile + Span(size, tile, k) <= size
    ensures k + 1 < CeilDiv(size, tile) ==> Span(size, tile, k) == tile
    ensures k + 1 == CeilDiv(size, tile) ==> k * tile + Span(size, tile, k) == size
  {
    var n := CeilDiv(size, tile);
    CeilDivIs(size, tile, n);
    MultiplesGrow(0, k, tile);
    MultiplesGrow(k + 1, n, tile);
    if k + 1 < n { MultiplesGrow(k + 1, n - 1, tile); }
    assert (k + 1) * tile == k * tile + tile && (n - 1) * tile == n * tile - tile;
  }

  lemma MultiplesGrow(a: int, b: int, tile: int)
    requires tile > 0 && a <= b
    ensures a * tile <= b * tile
  {
  }

  lemma MultiplesOrder(a: int, b: int, tile: int)
    requires tile > 0 && a * tile < b * tile
    ensures a < b
  {
  }

  /** Which tile along one side a pixel belongs to. */
  lemma SpanOf(size: int, tile: int, p: int)
    requires tile > 0 && 0 <= p < size
    ensures 0 <= p / tile < CeilDiv(size, tile)
    ensures (p / tile) * tile <= p < (p / tile) * tile + Span(size, tile, p / tile)
  {
    var n, k := CeilDiv(size, tile), p / tile;
    CeilDivIs(size, tile, n);
    assert k * tile <= p < k * tile + tile;
    MultiplesOrder(k, n, tile);
  }

  lemma SpanIsUnique(tile: int, p: int, k: int, length: int)
    requires tile > 0 && k * tile <= p < k * tile + length && length <= tile
    ensures k == p / tile
  {
    var d := p / tile;
    assert d * tile <= p < d * tile + tile;
    assert (k - d) * tile == k * tile - d * tile;
    SmallMultiple(k - d, tile);
  }

  /** An accepted tile lies inside its level and is between 1 and tileSize pixels in each direction. */
  lemma TilesInside(m: Manifest, h: Header)
    requires Accepted(m) && Fits(m, h)
    ensures 1 <= h.w <= m.tileSize && 1 <= h.h <= m.tileSize
    ensures 0 <= h.x * m.tileSize && h.x * m.tileSize + h.w <= m.levels[h.z].width
    ensures 0 <= h.y * m.tileSize && h.y * m.tileSize + h.h <= m.levels[h.z].height
  {
    SpanInside(m.levels[h.z].width, m.tileSize, h.x);
    SpanInside(m.levels[h.z].height, m.tileSize, h.y);
  }

  /** The tile that holds pixel (px, py) of level z. */
  function TileAt(m: Manifest, z: int, px: int, py: int): Header
    requires 0 <= z < |m.levels| && m.tileSize > 0
  {
    var x, y := px / m.tileSize, py / m.tileSize;
    Header(1, 1, m.imageId, m.imageVersion, z, x, y,
           Span(m.levels[z].width, m.tileSize, x), Span(m.levels[z].height, m.tileSize, y), 1, None)
  }

  lemma EveryPixelIsCovered(m: Manifest, z: int, px: int, py: int)
    requires Accepted(m) && 0 <= z < |m.levels| && 0 <= px < m.levels[z].width && 0 <= py < m.levels[z].height
    ensures Fits(m, TileAt(m, z, px, py)) && Covers(m, TileAt(m, z, px, py), px, py)
  {
    SpanOf(m.levels[z].width, m.tileSize, px);
    SpanOf(m.levels[z].height, m.tileSize, py);
    SpanInside(m.levels[z].width, m.tileSize, px / m.tileSize);
    SpanInside(m.levels[z].height, m.tileSize, py / m.tileSize);
    QuotientIsSmaller(px, m.tileSize);
    QuotientIsSmaller(py, m.tileSize);
  }

  lemma QuotientIsSmaller(p: int, tile: int)
    requires tile > 0 && p >= 0
    ensures 0 <= p / tile <= p
  {
    var q := p / tile;
    assert 0 <= q && q * tile <= p;
    assert q * (tile - 1) >= 0;
    assert q * tile == q * (tile - 1) + q;
  }

  /**
    Accepted tiles partition a level: two accepted headers of one level that
    share a pixel of it are the same tile, and every pixel has one.
  */
  lemma TilesPartition(m: Manifest, g: Header, h: Header, px: int, py: int)
    requires Accepted(m) && Fits(m, g) && Fits(m, h) && g.z == h.z
    requires Covers(m, g, px, py) && Covers(m, h, px, py)
    ensures g.x == h.x && g.y == h.y && g.w == h.w && g.h == h.h
  {
    TilesInside(m, g);
    TilesInside(m, h);
    SpanIsUnique(m.tileSize, px, g.x, g.w);
    SpanIsUnique(m.tileSize, px, h.x, h.w);
    SpanIsUnique(m.tileSize, py, g.y, g.h);
    SpanIsUnique(m.tileSize, py, h.y, h.h);
  }

  /** The coarsest level is a single tile. */
  lemma LevelZeroIsOneTile(m: Manifest, h: Header)
    requires Accepted(m) && IsTileHeader(h) && h.z == 0 && h.imageId == m.imageId && h.imageVersion == m.imageVersion
    ensures Fits(m, h) <==>
            h.x == 0 && h.y == 0 && h.w == m.levels[0].width && h.h == m.levels[0].height
  {
    hide IsPyramid;
    CeilDivIs(m.levels[0].width, m.tileSize, 1);
    CeilDivIs(m.levels[0].height, m.tileSize, 1);
  }

  // ----- areas -----

  /** The spans of the first k tiles along a side, added up. */
  function SpanSum(size: int, tile: int, k: nat): int {
    if k == 0 then 0 else SpanSum(size, tile, k - 1) + Span(size, tile, k - 1)
  }

  /** The areas of the first `rows` rows of the grid. */
  function AreaSum(m: Manifest, z: int, rows: nat): int
    requires 0 <= z < |m.levels| && m.tileSize > 0 && Columns(m, z) >= 0
  {
    if rows == 0 then 0
    else AreaSum(m, z, rows - 1) + RowArea(m, z, Columns(m, z), Span(m.levels[z].height, m.tileSize, rows - 1))
  }

  function RowArea(m: Manifest, z: int, columns: nat, height: int): int
    requires 0 <= z < |m.levels| && m.tileSize > 0
  {
    if columns == 0 then 0
    else RowArea(m, z, columns - 1, height) + Span(m.levels[z].width, m.tileSize, columns - 1) * height
  }

  lemma {:induction false} SpansAddUp(size: int, tile: int, k: nat)
    requires tile > 0 && size >= 1 && k <= CeilDiv(size, tile)
    ensures SpanSum(size, tile, k) == if k == CeilDiv(size, tile) then size else k * tile
  {
    if k > 0 {
      SpansAddUp(size, tile, k - 1);
      SpanInside(size, tile, k - 1);
      assert k * tile == (k - 1) * tile + tile;
    } else {
      CeilDivIs(size, tile, 0);
    }
  }

  lemma {:induction false} RowAreaIsProduct(m: Manifest, z: int, columns: nat, height: int)
    requires 0 <= z < |m.levels| && m.tileSize > 0
    ensures RowArea(m, z, columns, height) == SpanSum(m.levels[z].width, m.tileSize, columns) * height
  {
    if columns > 0 {
      RowAreaIsProduct(m, z, columns - 1, height);
      Distribute(SpanSum(m.levels[z].width, m.tileSize, columns - 1),
                 Span(m.levels[z].width, m.tileSize, columns - 1), height);
    }
  }

  lemma Distribute(a: int, b: int, c: int)
    ensures (a + b) * c == a * c + b * c && c * (a + b) == c * a + c * b
  {
  }

  lemma {:induction false} AreaIsProduct(m: Manifest, z: int, rows: nat)
    requires Accepted(m) && 0 <= z < |m.levels| && Columns(m, z) >= 0
    ensures AreaSum(m, z, rows) == m.levels[z].width * SpanSum(m.levels[z].height, m.tileSize, rows)
  {
    if rows > 0 {
      AreaIsProduct(m, z, rows - 1);
      var w, h := m.levels[z].width, Span(m.levels[z].height, m.tileSize, rows - 1);
      RowAreaIsProduct(m, z, Columns(m, z), h);
      SpansAddUp(w, m.tileSize, Columns(m, z));
      Distribute(SpanSum(m.levels[z].height, m.tileSize, rows - 1), h, w);
    }
  }

  /** The areas of all the accepted tiles of a level add up to the area of the level. */
  lemma AreasAddUp(m: Manifest, z: int)
    requires Accepted(m) && 0 <= z < |m.levels|
    ensures Columns(m, z) >= 1 && Rows(m, z) >= 1
    ensures AreaSum(m, z, Rows(m, z)) == m.levels[z].width * m.levels[z].height
  {
    SpanOf(m.levels[z].width, m.tileSize, 0);
    SpanOf(m.levels[z].height, m.tileSize, 0);
    AreaIsProduct(m, z, Rows(m, z));
    SpansAddUp(m.levels[z].height, m.tileSize, Rows(m, z));
  }
}
