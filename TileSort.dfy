/** Height-flag depth sorting of map tiles (js/plugins/DynamicTileLayers.js).

    A tile whose 16-bit tileset flag word carries a non-zero height in its top nibble is
    taken out of the flat tile layers and drawn as its own sprite at z = 3, so that the
    host's child sort orders it against characters by screen y. The file assigns several
    prototype members more than once; only the assignments that win at load time are
    modelled here. */
module TileSort {
  import opened Opt
  import opened Arith

  // ---------------------------------------------------------------------------
  // Flag decoding and classification (_processHighTile, lines 317-334)
  // ---------------------------------------------------------------------------

  /** A tileset flag word (16 bits): passability in the low bits, the height in bits 12..15. */
  type FlagWord = w: int | 0 <= w < 0x1_0000

  /** `this.flags[tileId]`: past the end of the table JavaScript reads `undefined`,
      and `undefined >> 12` is 0, exactly as for a flag word of 0. */
  function FlagOf(flags: seq<FlagWord>, tileId: nat): FlagWord
  {
    if tileId < |flags| then flags[tileId] else 0
  }

  /** `flag >> 12`: the tile's height, the top nibble of the word (on a non-negative
      16-bit value the shift is a division by 2^12). */
  function HeightOf(flag: FlagWord): (h: nat)
    ensures h <= 15
    ensures h * 4096 <= flag < (h + 1) * 4096
  {
    flag / 4096
  }

  /** What `_processHighTile` does with one tile. */
  datatype Placement =
    | Skipped          // tileId 0: returns at once
    | Raised(height: nat) // a Sprite_DynamicTile is created
    | Upper            // added to _upperLayer
    | Lower            // added to _lowerLayer

  /** The decision of `_processHighTile`; `higher` is the host's `_isHigherTile(tileId)`. */
  function Classify(flags: seq<FlagWord>, tileId: nat, higher: bool): (p: Placement)
    ensures tileId == 0 ==> p == Skipped
    ensures p.Raised? <==> tileId != 0 && HeightOf(FlagOf(flags, tileId)) > 0
    ensures p.Raised? ==> 1 <= p.height <= 15 && p.height == HeightOf(FlagOf(flags, tileId))
    ensures p == Upper <==> tileId != 0 && HeightOf(FlagOf(flags, tileId)) == 0 && higher
    ensures p == Lower <==> tileId != 0 && HeightOf(FlagOf(flags, tileId)) == 0 && !higher
  {
    if tileId == 0 then Skipped
    else
      var h := HeightOf(FlagOf(flags, tileId));
      if h > 0 then Raised(h)
      else if higher then Upper
      else Lower
  }

  /** Number of sprites a placement creates. */
  function SpriteCount(p: Placement): nat { if p.Raised? then 1 else 0 }

  /** A flat-tile call made into the host's tile layers, with its destination. */
  datatype LayerCall =
    | SpotTile(tileId: nat, dx: int, dy: int)   // host `_addSpotTile`
    | ToUpper(tileId: nat, dx: int, dy: int)    // `_addTile(this._upperLayer, ...)`
    | ToLower(tileId: nat, dx: int, dy: int)    // `_addTile(this._lowerLayer, ...)`

  /** The flat-layer calls `_processHighTile` itself makes for a placement: on its own it
      draws a non-empty tile exactly once, as a sprite or as one flat tile, all for this tile. */
  function PlacementCalls(p: Placement, tileId: nat, dx: int, dy: int): (r: seq<LayerCall>)
    ensures SpriteCount(p) + |r| == if p.Skipped? then 0 else 1
  {
    match p
    case Upper => [ToUpper(tileId, dx, dy)]
    case Lower => [ToLower(tileId, dx, dy)]
    case _ => []
  }

  /** The branch `_addSpot` runs after `_processHighTile` returns a falsy value:
      `_addSpotTile` for layers 0 and 1, upper/lower routing for layers 2 and 3. */
  function FallThrough(layer: nat, higher: bool, tileId: nat, dx: int, dy: int): seq<LayerCall>
  {
    if layer < 2 then [SpotTile(tileId, dx, dy)]
    else if higher then [ToUpper(tileId, dx, dy)]
    else [ToLower(tileId, dx, dy)]
  }

  /** Layer calls for one tile of one spot, as the code is written: the final
      `_processHighTile` returns `undefined`, so the fall-through branch always runs too. */
  function LayerCallsAsWritten(layer: nat, flags: seq<FlagWord>, higher: bool, tileId: nat, dx: int, dy: int): (r: seq<LayerCall>)
    ensures |r| >= 1 && r[|r| - 1] == FallThrough(layer, higher, tileId, dx, dy)[0]
  {
    PlacementCalls(Classify(flags, tileId, higher), tileId, dx, dy) + FallThrough(layer, higher, tileId, dx, dy)
  }

  /** Layer calls for one tile when `_processHighTile` reports "handled as sprite" and
      adds nothing itself, as the earlier definition at lines 197-210 does. */
  function LayerCallsIntended(layer: nat, flags: seq<FlagWord>, higher: bool, tileId: nat, dx: int, dy: int): seq<LayerCall>
  {
    if Classify(flags, tileId, higher).Raised? then [] else FallThrough(layer, higher, tileId, dx, dy)
  }


  /** As written, every non-empty tile is drawn twice: as a sprite and as a flat tile
      when it is raised, or twice into a flat layer when it is not. */
  lemma AsWrittenDrawsTileTwice(layer: nat, flags: seq<FlagWord>, higher: bool, tileId: nat, dx: int, dy: int)
    requires tileId != 0
    ensures SpriteCount(Classify(flags, tileId, higher)) + |LayerCallsAsWritten(layer, flags, higher, tileId, dx, dy)| == 2
  {
  }

  /** A concrete case: tile 1 of height 2 on layer 0 becomes a sprite and is also sent to
      `_addSpotTile`. */
  lemma AsWrittenRaisedTileAlsoFlat()
    ensures Classify([0, 0x2000], 1, false) == Raised(2)
    ensures LayerCallsAsWritten(0, [0, 0x2000], false, 1, 0, 0) == [SpotTile(1, 0, 0)]
  {
  }

  /** With the intended return value, each non-empty tile is drawn exactly once: either as
      a sprite or by one flat-layer call, never both. */
  lemma IntendedDrawsTileOnce(layer: nat, flags: seq<FlagWord>, higher: bool, tileId: nat, dx: int, dy: int)
    requires tileId != 0
    ensures SpriteCount(Classify(flags, tileId, higher)) + |LayerCallsIntended(layer, flags, higher, tileId, dx, dy)| == 1
    ensures Classify(flags, tileId, higher).Raised? ==> LayerCallsIntended(layer, flags, higher, tileId, dx, dy) == []
  {
  }

  // ---------------------------------------------------------------------------
  // Sort keys (_addDynamicTile 279-299, updatePosition 136-157)
  // ---------------------------------------------------------------------------

  /** The fixed row height the bias is counted in (the code uses 48, not the map's tile height). */
  const BIAS_UNIT: int := 48

  /** `_addDynamicTile`: `bias = -(height - 1) * 48`. */
  function BiasFor(height: nat): int
  {
    -(height - 1) * BIAS_UNIT
  }

  /** `x = Math.floor(scrolledX * tw)`. */
  function ScreenX(scrolledX: real, tw: int): int
  {
    (scrolledX * tw as real).Floor
  }

  /** `y = Math.floor((scrolledY + 1) * th)`: the bottom edge of the tile. */
  function ScreenY(scrolledY: real, th: int): int
  {
    ((scrolledY + 1.0) * th as real).Floor
  }

  /** The sort key of a raised tile lies `(height - 1)` bias rows south of its bottom edge;
      height 1 sorts exactly at the bottom edge. */
  function RaisedSortY(y: int, height: nat): (s: int)
    requires 1 <= height
    ensures s >= y
    ensures s - y == (height - 1) * BIAS_UNIT
    ensures height == 1 <==> s == y
  {
    y - BiasFor(height)
  }

  /** At an integral, unscrolled map row the bottom edge is exactly `(my + 1) * th`,
      so the key is `(my + 1) * th + (height - 1) * 48`. */
  lemma {:induction false} UnscrolledSortY(my: int, th: int, height: nat)
    requires 1 <= height
    ensures ScreenY(my as real, th) == (my + 1) * th
    ensures RaisedSortY(ScreenY(my as real, th), height) == (my + 1) * th + (height - 1) * 48
  {
    assert (my as real + 1.0) * th as real == ((my + 1) * th) as real;
  }

  /** The worked example: tile height 48, row 5, height 3 gives a key of 384. */
  lemma SortYExample()
    ensures RaisedSortY(ScreenY(5.0, 48), 3) == 384
  {
    UnscrolledSortY(5, 48, 3);
  }

  /** Characters in the same z band sort by `(row + 1) * th - shift` with a small shift.
      With th = 48 a raised tile of height h on row r paints after (covers) every such
      character standing on rows r .. r + h - 1, and before those further south. */
  lemma HeightShadow(row: int, height: nat, charRow: int, shift: int)
    requires 1 <= height && 0 < shift < 48
    ensures RaisedSortY((row + 1) * 48, height) > (charRow + 1) * 48 - shift <==> charRow < row + height
  {
  }

  // ---------------------------------------------------------------------------
  // Child order (_compareChildOrder, lines 302-315)
  // ---------------------------------------------------------------------------

  /** The fields the comparator reads; `sortY` is `undefined` for sprites that never set it. */
  datatype OrderKey = OrderKey(z: int, sortY: Option<int>, y: int, spriteId: int)

  /** `_sortY` when defined, else `y`. */
  function DepthY(k: OrderKey): int
  {
    if k.sortY.Some? then k.sortY.value else k.y
  }

  /** Reference order: lexicographic on (z, depth y, sprite id). */
  predicate LexBefore(a: OrderKey, b: OrderKey)
  {
    a.z < b.z
    || (a.z == b.z && DepthY(a) < DepthY(b))
    || (a.z == b.z && DepthY(a) == DepthY(b) && a.spriteId < b.spriteId)
  }

  /** `_compareChildOrder(a, b)`: negative exactly when `a` comes first in the
      lexicographic order, positive exactly when `b` does. */
  function Compare(a: OrderKey, b: OrderKey): (r: int)
    ensures r < 0 <==> LexBefore(a, b)
    ensures r > 0 <==> LexBefore(b, a)
  {
    if a.z != b.z then a.z - b.z
    else if DepthY(a) != DepthY(b) then DepthY(a) - DepthY(b)
    else a.spriteId - b.spriteId
  }

  /** The comparator is 0 exactly on keys that agree in all three fields. */
  lemma CompareZeroOnEqualKeys(a: OrderKey, b: OrderKey)
    ensures Compare(a, b) == 0 <==> a.z == b.z && DepthY(a) == DepthY(b) && a.spriteId == b.spriteId
  {
  }

  /** Swapping the arguments flips the sign. */
  lemma CompareAntisymmetric(a: OrderKey, b: OrderKey)
    ensures Compare(a, b) < 0 <==> Compare(b, a) > 0
    ensures Compare(a, b) == 0 <==> Compare(b, a) == 0
  {
  }

  /** "Paints before" is transitive. */
  lemma CompareTransitive(a: OrderKey, b: OrderKey, c: OrderKey)
    requires Compare(a, b) < 0 && Compare(b, c) < 0
    ensures Compare(a, c) < 0
  {
  }

  /** Sprites with different ids never tie, so the order is strict and total on them. */
  lemma CompareTotalOnIds(a: OrderKey, b: OrderKey)
    requires a.spriteId != b.spriteId
    ensures Compare(a, b) != 0
    ensures Compare(a, b) < 0 || Compare(b, a) < 0
  {
  }

  // ---------------------------------------------------------------------------
  // Source frame (initBitmap, lines 98-129)
  // ---------------------------------------------------------------------------

  datatype Frame = Frame(setNumber: nat, sx: int, sy: int, w: int, h: int)

  /** `setNumber`: 4 for A5 tiles, else `5 + floor(tileId / 256)` (B..E sheets). */
  function SetNumber(tileId: nat, isA5: bool): nat
  {
    if isA5 then 4 else 5 + tileId / 256
  }

  /** Column of the tile in its sheet: `(floor(tileId/128) % 2) * 8 + tileId % 8`. */
  function FrameColumn(tileId: nat): nat
  {
    (tileId / 128) % 2 * 8 + tileId % 8
  }

  /** Row of the tile in its sheet: `floor((tileId % 256) / 8) % 16`. */
  function FrameRow(tileId: nat): nat
  {
    (tileId % 256) / 8 % 16
  }

  /** The frame `initBitmap` sets: one tile in size, from sheet 4 exactly for A5 tiles,
      otherwise from the B..E sheet whose 256-tile block holds the tile. */
  function TileFrame(tileId: nat, isA5: bool, w: int, h: int): (f: Frame)
    ensures f.w == w && f.h == h
    ensures f.setNumber == 4 <==> isA5
    ensures !isA5 ==> (f.setNumber - 5) * 256 <= tileId < (f.setNumber - 4) * 256
  {
    Frame(SetNumber(tileId, isA5), FrameColumn(tileId) * w, FrameRow(tileId) * h, w, h)
  }

  /** The frame lies inside a 16 x 16 tile sheet. */
  lemma {:induction false} FrameInSheet(tileId: nat, isA5: bool, w: int, h: int)
    requires 0 <= w && 0 <= h
    ensures var f := TileFrame(tileId, isA5, w, h);
      0 <= f.sx && f.sx + w <= 16 * w && 0 <= f.sy && f.sy + h <= 16 * h
  {
    CellInSheet(FrameColumn(tileId), w);
    CellInSheet(FrameRow(tileId), h);
  }

  /** Cell `c` of a 16-cell strip of cells of size `w` lies inside the strip. */
  lemma CellInSheet(c: nat, w: int)
    requires c < 16 && 0 <= w
    ensures 0 <= c * w && c * w + w <= 16 * w
  {
    assert (15 - c) * w >= 0;
  }

  /** Column and row give back the tile's position within its 256-tile block. */
  lemma {:induction false} FrameCellRoundTrip(tileId: nat)
    ensures tileId % 256 == FrameColumn(tileId) / 8 * 128 + FrameRow(tileId) * 8 + FrameColumn(tileId) % 8
  {
    var a, m := (tileId / 128) % 2, tileId % 128;
    Split256(tileId);
    Split8(tileId);
    DivideBy8(tileId % 256, 16 * a + m / 8, m % 8);
    assert FrameRow(tileId) == (16 * a + m / 8) % 16;
    assert (16 * a + m / 8) % 16 == m / 8;
    DivideBy8(FrameColumn(tileId), a, tileId % 8);
  }

  /** The low byte of a tile id is the 128-bit's half plus the remainder mod 128. */
  lemma Split256(t: nat)
    ensures t % 256 == 128 * ((t / 128) % 2) + t % 128
  {
    var q := t / 128;
    assert t == 256 * (q / 2) + (128 * (q % 2) + t % 128);
  }

  /** The last three bits survive taking the remainder mod 128. */
  lemma Split8(t: nat)
    ensures t % 8 == (t % 128) % 8
  {
    var q, m := t / 128, t % 128;
    assert t == 128 * q + m;
    assert m == 8 * (m / 8) + m % 8;
    DivideBy8(t, 16 * q + m / 8, m % 8);
  }

  /** Quotient and remainder by 8 of `8 * x + r` with `0 <= r < 8`. */
  lemma DivideBy8(t: int, x: int, r: int)
    requires t == 8 * x + r && 0 <= r < 8
    ensures t / 8 == x && t % 8 == r
  {
  }

  /** Two B..E tiles with the same frame are the same tile. */
  lemma {:induction false} FrameDeterminesTile(t1: nat, t2: nat, w: int, h: int)
    requires 0 < w && 0 < h
    requires TileFrame(t1, false, w, h) == TileFrame(t2, false, w, h)
    ensures t1 == t2
  {
    MulCancel(FrameColumn(t1), FrameColumn(t2), w);
    MulCancel(FrameRow(t1), FrameRow(t2), h);
    FrameCellRoundTrip(t1);
    FrameCellRoundTrip(t2);
    assert t1 % 256 == t2 % 256;
    assert t1 / 256 == t2 / 256;
    assert t1 == 256 * (t1 / 256) + t1 % 256;
    assert t2 == 256 * (t2 / 256) + t2 % 256;
  }

  // ---------------------------------------------------------------------------
  // Sprites, the global id counter and the tilemap's sprite list
  // ---------------------------------------------------------------------------

  /** Host queries the tile code consults: tile size, `$gameMap.adjustX/adjustY`,
      `Tilemap.isTileA5` and the tilemap's `_isHigherTile`. */
  datatype Host = Host(tw: int, th: int, adjustX: int -> real, adjustY: int -> real,
                       isA5: nat -> bool, isHigher: nat -> bool)

  /** The process-wide `_globalSpriteIdCounter` (lines 268-277). Nothing resets it. */
  class SpriteIds {
    var next: nat

    constructor ()
      ensures next == 0
    {
      next := 0;
    }

    /** One `Sprite.prototype.initialize`: `spriteId = counter++`. */
    method Take() returns (id: nat)
      modifies this
      ensures id == old(next) && next == old(next) + 1
    {
      id := next;
      next := next + 1;
    }
  }

  /** What the sprite list records of a dynamic tile, all fixed at construction. */
  datatype SpriteInfo = SpriteInfo(tileId: nat, mx: int, my: int, height: nat)

  /** A `Sprite_DynamicTile`. */
  class DynamicTileSprite {
    const tileId: nat
    const mx: int
    const my: int
    const sortBias: int
    const height: nat
    const z: int
    const spriteId: nat
    /** Id taken by the height label sprite the constructor adds as a child. */
    const labelId: nat
    const frame: Frame
    var x: int
    var y: int
    var sortY: Option<int>
    var attached: bool
    var destroyed: bool

    /** Position and key as `updatePosition` leaves them. */
    ghost predicate Placed(host: Host)
      reads this
    {
      && x == ScreenX(host.adjustX(mx), host.tw)
      && y == ScreenY(host.adjustY(my), host.th)
      && sortY == Some(y - sortBias)
    }

    /** `new Sprite_DynamicTile(tileId, mx, my, bias, height)`: takes the next sprite id
        for itself, then one more for its height label. */
    constructor (ids: SpriteIds, host: Host, tileId: nat, mx: int, my: int, bias: int, height: nat)
      modifies ids
      ensures this.tileId == tileId && this.mx == mx && this.my == my
      ensures sortBias == bias && this.height == height && z == 3
      ensures spriteId == old(ids.next) && labelId == spriteId + 1 && ids.next == old(ids.next) + 2
      ensures frame == TileFrame(tileId, host.isA5(tileId), host.tw, host.th)
      ensures Placed(host)
      ensures !attached && !destroyed
    {
      var id := ids.Take();
      this.spriteId := id;
      this.tileId := tileId;
      this.mx := mx;
      this.my := my;
      this.sortBias := bias;
      this.height := height;
      this.z := 3;
      this.frame := TileFrame(tileId, host.isA5(tileId), host.tw, host.th);
      var sx := ScreenX(host.adjustX(mx), host.tw);
      var sy := ScreenY(host.adjustY(my), host.th);
      this.x := sx;
      this.y := sy;
      this.sortY := Some(sy - bias);
      this.attached := false;
      this.destroyed := false;
      var nextId := ids.Take();
      this.labelId := nextId;
    }

    /** `updatePosition` (lines 136-157), run every frame from `update`. */
    method UpdatePosition(host: Host)
      modifies this`x, this`y, this`sortY
      ensures Placed(host)
    {
      x := ScreenX(host.adjustX(mx), host.tw);
      y := ScreenY(host.adjustY(my), host.th);
      sortY := Some(y - sortBias);
    }
  }

  function InfoOf(s: DynamicTileSprite): SpriteInfo
  {
    SpriteInfo(s.tileId, s.mx, s.my, s.height)
  }

  /** What a list of sprites records, sprite by sprite. */
  function Infos(ss: seq<DynamicTileSprite>): (r: seq<SpriteInfo>)
    ensures |r| == |ss|
  {
    seq(|ss|, i requires 0 <= i < |ss| => InfoOf(ss[i]))
  }

  /** The comparator's view of a sprite. */
  function KeyOf(s: DynamicTileSprite): OrderKey
    reads s
  {
    OrderKey(s.z, s.sortY, s.y, s.spriteId)
  }

  /** Sprites a placement creates, by what they record. */
  function PromotedBy(p: Placement, tileId: nat, mx: int, my: int): seq<SpriteInfo>
  {
    if p.Raised? then [SpriteInfo(tileId, mx, my, p.height)] else []
  }

  /** Sprites one layer of `_addSpot` creates at map cell (mx, my). */
  function LayerSprites(host: Host, flags: seq<FlagWord>, tileId: nat, mx: int, my: int): seq<SpriteInfo>
  {
    PromotedBy(Classify(flags, tileId, host.isHigher(tileId)), tileId, mx, my)
  }

  /** Flat-layer calls one layer of `_addSpot` makes at pixel offset (dx, dy), as written. */
  function LayerCalls(host: Host, flags: seq<FlagWord>, layer: nat, tileId: nat, dx: int, dy: int): seq<LayerCall>
  {
    LayerCallsAsWritten(layer, flags, host.isHigher(tileId), tileId, dx, dy)
  }

  /** The four tile ids `_addSpot` reads at one map cell (layers 0..3). */
  datatype SpotTiles = SpotTiles(layer0: nat, layer1: nat, layer2: nat, layer3: nat)

  /** One cell of the host's `_addAllSpots` enumeration. */
  datatype Spot = Spot(x: int, y: int, tiles: SpotTiles)

  /** Sprites created by `_addSpot` at cell `c` of the pass starting at (startX, startY),
      in layer order. */
  function SpotSprites(host: Host, flags: seq<FlagWord>, startX: int, startY: int, c: Spot): seq<SpriteInfo>
  {
    var mx := startX + c.x;
    var my := startY + c.y;
    var t := c.tiles;
    LayerSprites(host, flags, t.layer0, mx, my) + LayerSprites(host, flags, t.layer1, mx, my)
    + LayerSprites(host, flags, t.layer2, mx, my) + LayerSprites(host, flags, t.layer3, mx, my)
  }

  /** Flat-layer calls made by `_addSpot` at cell `c`, as written (shadows and table edges
      aside); the cell's pixel offset is (x * tileWidth, y * tileHeight). */
  function SpotCallsAsWritten(host: Host, flags: seq<FlagWord>, c: Spot): seq<LayerCall>
  {
    var dx := c.x * host.tw;
    var dy := c.y * host.th;
    var t := c.tiles;
    LayerCalls(host, flags, 0, t.layer0, dx, dy) + LayerCalls(host, flags, 1, t.layer1, dx, dy)
    + LayerCalls(host, flags, 2, t.layer2, dx, dy) + LayerCalls(host, flags, 3, t.layer3, dx, dy)
  }

  /** Sprites created by an `_addAllSpots` pass over the first `n` cells of `spots`, in order. */
  function AllSpotSprites(host: Host, flags: seq<FlagWord>, startX: int, startY: int, spots: seq<Spot>, n: nat): seq<SpriteInfo>
    requires n <= |spots|
  {
    if n == 0 then []
    else
      AllSpotSprites(host, flags, startX, startY, spots, n - 1)
      + SpotSprites(host, flags, startX, startY, spots[n - 1])
  }

  /** Flat-layer calls made by an `_addAllSpots` pass over the first `n` cells, as written. */
  function AllSpotCalls(host: Host, flags: seq<FlagWord>, spots: seq<Spot>, n: nat): seq<LayerCall>
    requires n <= |spots|
  {
    if n == 0 then []
    else AllSpotCalls(host, flags, spots, n - 1) + SpotCallsAsWritten(host, flags, spots[n - 1])
  }

  /** 1 for a non-empty tile id, 0 for tile 0. */
  function Occupied(tileId: nat): nat { if tileId != 0 then 1 else 0 }

  /** Number of non-empty tiles among a cell's four layers. */
  function NonEmptyAt(t: SpotTiles): nat
  {
    Occupied(t.layer0) + Occupied(t.layer1) + Occupied(t.layer2) + Occupied(t.layer3)
  }

  /** Number of non-empty tiles in the first `n` cells. */
  function NonEmptyTiles(spots: seq<Spot>, n: nat): nat
    requires n <= |spots|
  {
    if n == 0 then 0 else NonEmptyTiles(spots, n - 1) + NonEmptyAt(spots[n - 1].tiles)
  }

  /** One layer, as written: tile 0 costs one (ignored) flat call, any other tile two draws. */
  lemma LayerDraws(host: Host, flags: seq<FlagWord>, layer: nat, tileId: nat, dx: int, dy: int, mx: int, my: int)
    ensures |LayerSprites(host, flags, tileId, mx, my)| + |LayerCalls(host, flags, layer, tileId, dx, dy)|
            == 1 + Occupied(tileId)
  {
  }

  /** Over a whole pass, as written, sprites and flat calls together number four per
      cell plus one extra draw for every non-empty tile; with the intended return value
      there would be exactly four per cell. */
  lemma {:induction false} AsWrittenMapDrawsExtra(host: Host, flags: seq<FlagWord>, startX: int, startY: int, spots: seq<Spot>, n: nat)
    requires n <= |spots|
    ensures |AllSpotSprites(host, flags, startX, startY, spots, n)| + |AllSpotCalls(host, flags, spots, n)|
            == 4 * n + NonEmptyTiles(spots, n)
  {
    if n > 0 {
      var m := n - 1;
      AsWrittenMapDrawsExtra(host, flags, startX, startY, spots, m);
      PassStep(host, flags, startX, startY, spots, m);
    }
  }

  /** Cell `m` adds its own four draws and one per non-empty tile to a pass. */
  lemma PassStep(host: Host, flags: seq<FlagWord>, startX: int, startY: int, spots: seq<Spot>, m: nat)
    requires m < |spots|
    ensures |AllSpotSprites(host, flags, startX, startY, spots, m + 1)| + |AllSpotCalls(host, flags, spots, m + 1)|
            == |AllSpotSprites(host, flags, startX, startY, spots, m)| + |AllSpotCalls(host, flags, spots, m)|
               + 4 + NonEmptyAt(spots[m].tiles)
    ensures NonEmptyTiles(spots, m + 1) == NonEmptyTiles(spots, m) + NonEmptyAt(spots[m].tiles)
  {
    SpotDraws(host, flags, startX, startY, spots[m]);
  }

  /** One cell, as written: four draws plus one for each non-empty tile. */
  lemma SpotDraws(host: Host, flags: seq<FlagWord>, startX: int, startY: int, c: Spot)
    ensures |SpotSprites(host, flags, startX, startY, c)| + |SpotCallsAsWritten(host, flags, c)|
            == 4 + NonEmptyAt(c.tiles)
  {
    var t := c.tiles;
    var mx, my := startX + c.x, startY + c.y;
    var dx, dy := c.x * host.tw, c.y * host.th;
    LayerDraws(host, flags, 0, t.layer0, dx, dy, mx, my);
    LayerDraws(host, flags, 1, t.layer1, dx, dy, mx, my);
    LayerDraws(host, flags, 2, t.layer2, dx, dy, mx, my);
    LayerDraws(host, flags, 3, t.layer3, dx, dy, mx, my);
  }

  /** Regrouping two appends. */
  lemma Append2<T>(a: seq<T>, b: seq<T>, c: seq<T>)
    ensures a + b + c == a + (b + c)
  {
  }

  /** Regrouping four appends. */
  lemma Append4<T>(a: seq<T>, b: seq<T>, c: seq<T>, d: seq<T>, e: seq<T>)
    ensures a + b + c + d + e == a + (b + c + d + e)
  {
  }

  /** The patched `Tilemap`: its tileset flags, its `_dynamicSprites` list and the
      flat-layer calls it has made. */
  class Tilemap {
    var flags: seq<FlagWord>
    var dynamicSprites: seq<DynamicTileSprite>
    /** A log of the flat-layer calls made so far, across passes; the host's own clearing
        of its layers at the start of `_addAllSpots` is not part of it. */
    var layerCalls: seq<LayerCall>
    const ids: SpriteIds

    /** Every listed sprite is a live child with a height-derived bias at z = 3, each
        sprite's ids (its own, then its label's) come after the previous sprite's, and all
        were issued by the counter. */
    ghost predicate Valid()
      reads this, ids, dynamicSprites
    {
      && (forall i :: 0 <= i < |dynamicSprites| ==>
            dynamicSprites[i].attached && !dynamicSprites[i].destroyed)
      && (forall i :: 0 <= i < |dynamicSprites| ==>
            && dynamicSprites[i].z == 3
            && 1 <= dynamicSprites[i].height <= 15
            && dynamicSprites[i].sortBias == BiasFor(dynamicSprites[i].height)
            && dynamicSprites[i].labelId == dynamicSprites[i].spriteId + 1
            && dynamicSprites[i].labelId < ids.next)
      && (forall i, j :: 0 <= i && j == i + 1 && j < |dynamicSprites| ==>
            dynamicSprites[i].labelId < dynamicSprites[j].spriteId)
    }

    /** `Tilemap.prototype.initialize` as extended at lines 160-164. */
    constructor (ids: SpriteIds, flags: seq<FlagWord>)
      ensures Valid()
      ensures this.ids == ids && this.flags == flags
      ensures dynamicSprites == [] && layerCalls == []
    {
      this.ids := ids;
      this.flags := flags;
      dynamicSprites := [];
      layerCalls := [];
    }

    /** `_clearDynamicSprites` (lines 181-189): every listed sprite is removed from the
        tilemap and destroyed, and the list is emptied. */
    method ClearDynamicSprites()
      requires Valid()
      modifies this, dynamicSprites
      ensures Valid()
      ensures dynamicSprites == []
      ensures forall i :: 0 <= i < |old(dynamicSprites)| ==> !old(dynamicSprites)[i].attached && old(dynamicSprites)[i].destroyed
      ensures flags == old(flags) && layerCalls == old(layerCalls)
    {
      var list := dynamicSprites;
      for i := 0 to |list|
        invariant dynamicSprites == list && flags == old(flags) && layerCalls == old(layerCalls)
        invariant forall k :: 0 <= k < i ==> !list[k].attached && list[k].destroyed
      {
        list[i].attached := false;   // removeChild
        list[i].destroyed := true;   // destroy
      }
      dynamicSprites := [];
    }

    /** `_addDynamicTile` (lines 279-299): one new sprite with bias `-(height - 1) * 48`
        is added as a child and appended; the sprites already listed are untouched. */
    method AddDynamicTile(host: Host, tileId: nat, mx: int, my: int, flag: nat) returns (s: DynamicTileSprite)
      requires Valid() && 1 <= flag <= 15
      modifies this, ids
      ensures Valid()
      ensures fresh(s) && dynamicSprites == old(dynamicSprites) + [s]
      ensures InfoOf(s) == SpriteInfo(tileId, mx, my, flag)
      ensures s.sortBias == BiasFor(flag) && s.spriteId == old(ids.next) && s.Placed(host)
      ensures ids.next == old(ids.next) + 2
      ensures flags == old(flags) && layerCalls == old(layerCalls)
    {
      var height := flag;
      var bias := -(height as int - 1) * BIAS_UNIT;
      s := new DynamicTileSprite(ids, host, tileId, mx, my, bias, height);
      s.attached := true;   // addChild
      dynamicSprites := dynamicSprites + [s];
    }

    /** The final `_processHighTile` (lines 317-334): a raised tile becomes a sprite, a
        flat one goes to the upper or lower layer, tile 0 is skipped. */
    method ProcessHighTile(host: Host, tileId: nat, dx: int, dy: int, mx: int, my: int)
      requires Valid()
      modifies this, ids
      ensures Valid()
      ensures |dynamicSprites| >= |old(dynamicSprites)|
      ensures dynamicSprites[..|old(dynamicSprites)|] == old(dynamicSprites)
      ensures Infos(dynamicSprites) ==
              Infos(old(dynamicSprites)) + PromotedBy(Classify(flags, tileId, host.isHigher(tileId)), tileId, mx, my)
      ensures layerCalls ==
              old(layerCalls) + PlacementCalls(Classify(flags, tileId, host.isHigher(tileId)), tileId, dx, dy)
      ensures flags == old(flags)
    {
      if tileId == 0 {
        return;
      }
      var flag := HeightOf(FlagOf(flags, tileId));
      if flag > 0 {
        var s := AddDynamicTile(host, tileId, mx, my, flag);
      } else {
        if host.isHigher(tileId) {
          layerCalls := layerCalls + [ToUpper(tileId, dx, dy)];
        } else {
          layerCalls := layerCalls + [ToLower(tileId, dx, dy)];
        }
      }
    }

    /** The fall-through branch of `_addSpot` for one layer. */
    method AddFlat(host: Host, layer: nat, tileId: nat, dx: int, dy: int)
      modifies this`layerCalls
      ensures layerCalls == old(layerCalls) + FallThrough(layer, host.isHigher(tileId), tileId, dx, dy)
    {
      if layer < 2 {
        layerCalls := layerCalls + [SpotTile(tileId, dx, dy)];
      } else if host.isHigher(tileId) {
        layerCalls := layerCalls + [ToUpper(tileId, dx, dy)];
      } else {
        layerCalls := layerCalls + [ToLower(tileId, dx, dy)];
      }
    }

    /** One layer of `_addSpot`: `if (!this._processHighTile(...))` followed by the flat
        branch, which always runs because the call yields `undefined`. */
    method AddLayer(host: Host, layer: nat, tileId: nat, dx: int, dy: int, mx: int, my: int)
      requires Valid()
      modifies this, ids
      ensures Valid()
      ensures Infos(dynamicSprites) == Infos(old(dynamicSprites)) + LayerSprites(host, flags, tileId, mx, my)
      ensures layerCalls == old(layerCalls) + LayerCalls(host, flags, layer, tileId, dx, dy)
      ensures flags == old(flags)
    {
      ProcessHighTile(host, tileId, dx, dy, mx, my);
      AddFlat(host, layer, tileId, dx, dy);
    }

    /** `_addSpot` (lines 213-266) for the four layers of one cell. */
    method AddSpot(host: Host, startX: int, startY: int, c: Spot)
      requires Valid()
      modifies this, ids
      ensures Valid()
      ensures Infos(dynamicSprites) ==
              Infos(old(dynamicSprites)) + SpotSprites(host, flags, startX, startY, c)
      ensures layerCalls ==
              old(layerCalls) + SpotCallsAsWritten(host, flags, c)
      ensures flags == old(flags)
    {
      var mx := startX + c.x;
      var my := startY + c.y;
      var dx := c.x * host.tw;
      var dy := c.y * host.th;
      var t := c.tiles;
      ghost var fs, c0, i0 := flags, layerCalls, Infos(dynamicSprites);
      ghost var l0 := LayerCalls(host, fs, 0, t.layer0, dx, dy);
      ghost var l1 := LayerCalls(host, fs, 1, t.layer1, dx, dy);
      ghost var l2 := LayerCalls(host, fs, 2, t.layer2, dx, dy);
      ghost var l3 := LayerCalls(host, fs, 3, t.layer3, dx, dy);
      ghost var p0 := LayerSprites(host, fs, t.layer0, mx, my);
      ghost var p1 := LayerSprites(host, fs, t.layer1, mx, my);
      ghost var p2 := LayerSprites(host, fs, t.layer2, mx, my);
      ghost var p3 := LayerSprites(host, fs, t.layer3, mx, my);
      AddLayer(host, 0, t.layer0, dx, dy, mx, my);
      AddLayer(host, 1, t.layer1, dx, dy, mx, my);
      AddLayer(host, 2, t.layer2, dx, dy, mx, my);
      AddLayer(host, 3, t.layer3, dx, dy, mx, my);
      assert layerCalls == c0 + l0 + l1 + l2 + l3 && Infos(dynamicSprites) == i0 + p0 + p1 + p2 + p3;
      Append4(c0, l0, l1, l2, l3);
      Append4(i0, p0, p1, p2, p3);
    }

    /** `_addAllSpots` (lines 175-179): the old sprites are cleared first, then the host
        visits every cell of `spots` in its order and `_addSpot` runs for each. */
    method AddAllSpots(host: Host, startX: int, startY: int, spots: seq<Spot>)
      requires Valid()
      modifies this, ids, dynamicSprites
      ensures Valid()
      ensures forall i :: 0 <= i < |old(dynamicSprites)| ==> !old(dynamicSprites)[i].attached && old(dynamicSprites)[i].destroyed
      ensures Infos(dynamicSprites) == AllSpotSprites(host, flags, startX, startY, spots, |spots|)
      ensures layerCalls == old(layerCalls) + AllSpotCalls(host, flags, spots, |spots|)
      ensures flags == old(flags)
    {
      ClearDynamicSprites();
      AddSpots(host, startX, startY, spots);
    }

    /** The host's walk over the visible cells, `_addSpot` once per cell in order. */
    method AddSpots(host: Host, startX: int, startY: int, spots: seq<Spot>)
      requires Valid()
      modifies this, ids
      ensures Valid()
      ensures Infos(dynamicSprites) == Infos(old(dynamicSprites)) + AllSpotSprites(host, flags, startX, startY, spots, |spots|)
      ensures layerCalls == old(layerCalls) + AllSpotCalls(host, flags, spots, |spots|)
      ensures flags == old(flags)
    {
      for k := 0 to |spots|
        modifies this, ids
        invariant Valid() && flags == old(flags)
        invariant Infos(dynamicSprites) == Infos(old(dynamicSprites)) + AllSpotSprites(host, flags, startX, startY, spots, k)
        invariant layerCalls == old(layerCalls) + AllSpotCalls(host, flags, spots, k)
      {
        AddSpot(host, startX, startY, spots[k]);
        Append2(Infos(old(dynamicSprites)), AllSpotSprites(host, flags, startX, startY, spots, k),
                SpotSprites(host, flags, startX, startY, spots[k]));
        Append2(old(layerCalls), AllSpotCalls(host, flags, spots, k), SpotCallsAsWritten(host, flags, spots[k]));
      }
    }

    /** Sprite ids strictly increase along the list. */
    lemma {:induction false} IdsIncrease(i: int, j: int)
      requires Valid()
      requires 0 <= i < j < |dynamicSprites|
      ensures dynamicSprites[i].spriteId < dynamicSprites[j].spriteId
      decreases j - i
    {
      if i + 1 < j {
        IdsIncrease(i + 1, j);
        assert dynamicSprites[i].labelId < dynamicSprites[i + 1].spriteId;
      }
    }

    /** Two different sprites in the list never compare equal, so the host's sort gives
        them one fixed relative order. */
    lemma ListedSpritesNeverTie(i: int, j: int)
      requires Valid()
      requires 0 <= i < |dynamicSprites| && 0 <= j < |dynamicSprites| && i != j
      ensures Compare(KeyOf(dynamicSprites[i]), KeyOf(dynamicSprites[j])) != 0
    {
      if i < j {
        IdsIncrease(i, j);
      } else {
        IdsIncrease(j, i);
      }
      CompareTotalOnIds(KeyOf(dynamicSprites[i]), KeyOf(dynamicSprites[j]));
    }
  }
}
