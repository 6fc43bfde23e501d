/** Camera-relative isometric projection of the map (js/plugins/IsometricView.js).

    Every corner of every tile quad is taken relative to the player's pixel anchor, sent
    through the 2 x 2 part of a fixed affine matrix, moved to the screen centre and
    floored; the quads are then packed, nine numbers per vertex, into the layer's vertex
    array. The coefficients are exact binary fractions, so `real` models them exactly. */
module IsoProjection {

  // ---------------------------------------------------------------------------
  // The matrix and the per-corner transform (lines 28-32, 59-64, 104-116)
  // ---------------------------------------------------------------------------

  /** The first two rows of the plugin's 3 x 3 affine matrix: `[a, b, tx]`, `[c, d, ty]`. */
  datatype Affine = Affine(a: real, b: real, tx: real, c: real, d: real, ty: real)

  /** The matrix the plugin ships: `[[1, -1, 0], [1/2, 1/2, 0], [0, 0, 1]]`. */
  const ISO: Affine := Affine(1.0, -1.0, 0.0, 0.5, 0.5, 0.0)

  /** A point in pixels (a tile corner, or a projected vertex). */
  datatype Point = Point(x: int, y: int)

  /** What the transform reads from the host: the player's `scrolledX()`/`scrolledY()`,
      the map's tile size and `Graphics.width`/`Graphics.height`. */
  datatype Camera = Camera(scrolledX: real, scrolledY: real, tw: int, th: int, width: int, height: int)

  /** `Math.floor(scrolled * t + t / 2)`: the pixel the player stands on. */
  function Anchor(scrolled: real, t: int): int
  {
    (scrolled * t as real + t as real / 2.0).Floor
  }

  /** The player's anchor `(playerMapX, playerMapY)`. */
  function PlayerAnchor(cam: Camera): Point
  {
    Point(Anchor(cam.scrolledX, cam.tw), Anchor(cam.scrolledY, cam.th))
  }

  /** The transform applied to one corner `v`: relative to the anchor, times the
      matrix's 2 x 2 part, plus the screen centre, floored. `tx` and `ty` are read by
      the plugin but take no part. */
  function Transform(m: Affine, cam: Camera, v: Point): Point
  {
    var p := PlayerAnchor(cam);
    var adjX := (v.x - p.x) as real;
    var adjY := (v.y - p.y) as real;
    Point((m.a * adjX + m.b * adjY + cam.width as real / 2.0).Floor,
          (m.c * adjX + m.d * adjY + cam.height as real / 2.0).Floor)
  }

  /** Flooring commutes with adding an integer. */
  lemma FloorShift(k: int, r: real)
    ensures (k as real + r).Floor == k + r.Floor
  {
  }

  /** Half of an integer, floored, is Euclidean division by 2. */
  lemma FloorHalf(n: int)
    ensures (n as real / 2.0).Floor == n / 2
  {
    var q := n / 2;
    assert n == 2 * q || n == 2 * q + 1;
  }

  /** The shipped matrix in closed form: `x = (vx - px) - (vy - py) + floor(W / 2)` and
      `y = floor(((vx - px) + (vy - py) + H) / 2)`. */
  lemma {:induction false} IsoClosedForm(cam: Camera, v: Point)
    ensures var p := PlayerAnchor(cam);
      Transform(ISO, cam, v) ==
        Point((v.x - p.x) - (v.y - p.y) + cam.width / 2,
              ((v.x - p.x) + (v.y - p.y) + cam.height) / 2)
  {
    var p := PlayerAnchor(cam);
    var dx, dy := v.x - p.x, v.y - p.y;
    var r := Transform(ISO, cam, v);
    assert 1.0 * dx as real + -1.0 * dy as real == (dx - dy) as real;
    FloorShift(dx - dy, cam.width as real / 2.0);
    FloorHalf(cam.width);
    assert 0.5 * dx as real + 0.5 * dy as real + cam.height as real / 2.0
        == (dx + dy + cam.height) as real / 2.0;
    FloorHalf(dx + dy + cam.height);
  }

  /** The translation column never matters: two matrices that agree on `a, b, c, d`
      project every corner alike. */
  lemma TranslationIgnored(m1: Affine, m2: Affine, cam: Camera, v: Point)
    requires m1.a == m2.a && m1.b == m2.b && m1.c == m2.c && m1.d == m2.d
    ensures Transform(m1, cam, v) == Transform(m2, cam, v)
  {
  }

  /** `Game_CharacterBase.screenX`/`screenY` as overridden (lines 173-181): every
      character is drawn at `(floor(W / 2), floor(H / 2))`. */
  function ScreenCentre(cam: Camera): (p: Point)
    ensures p.x == cam.width / 2 && p.y == cam.height / 2
  {
    FloorHalf(cam.width);
    FloorHalf(cam.height);
    Point((cam.width as real / 2.0).Floor, (cam.height as real / 2.0).Floor)
  }

  /** Whatever the matrix, the player's own pixel lands where the characters are drawn:
      the tile under the player and the player sprite meet at the screen centre. */
  lemma AnchorMapsToCentre(m: Affine, cam: Camera)
    ensures Transform(m, cam, PlayerAnchor(cam)) == ScreenCentre(cam)
  {
    var p := PlayerAnchor(cam);
    assert (p.x - p.x) as real == 0.0 && (p.y - p.y) as real == 0.0;
    assert m.a * 0.0 + m.b * 0.0 == 0.0 && m.c * 0.0 + m.d * 0.0 == 0.0;
    FloorHalf(cam.width);
    FloorHalf(cam.height);
  }

  /** The four corners of a quad in submission order: top-left, top-right,
      bottom-right, bottom-left. */
  function Corners(dx: int, dy: int, w: int, h: int): (cs: seq<Point>)
    ensures |cs| == 4
  {
    [Point(dx, dy), Point(dx + w, dy), Point(dx + w, dy + h), Point(dx, dy + h)]
  }

  /** Moving a corner by `(ex, ey)` with `ex + ey` even moves its image by
      `(ex - ey, (ex + ey) / 2)`. */
  lemma {:induction false} ShiftedCorner(cam: Camera, v: Point, ex: int, ey: int)
    requires (ex + ey) % 2 == 0
    ensures var t := Transform(ISO, cam, v);
      Transform(ISO, cam, Point(v.x + ex, v.y + ey)) == Point(t.x + ex - ey, t.y + (ex + ey) / 2)
  {
    var p := PlayerAnchor(cam);
    IsoClosedForm(cam, v);
    IsoClosedForm(cam, Point(v.x + ex, v.y + ey));
    HalfOfEvenSum((v.x - p.x) + (v.y - p.y) + cam.height, ex + ey);
  }

  /** A `w x h` quad becomes a diamond: the right corner is `w` to the right of the top
      corner and the left corner `h` to its left, and for even sizes they sit `w / 2`
      and `h / 2` lower. */
  lemma {:induction false} QuadIsDiamond(cam: Camera, dx: int, dy: int, w: int, h: int)
    requires w % 2 == 0 && h % 2 == 0
    ensures var cs := Corners(dx, dy, w, h);
      var t := Transform(ISO, cam, cs[0]);
      && Transform(ISO, cam, cs[1]) == Point(t.x + w, t.y + w / 2)
      && Transform(ISO, cam, cs[3]) == Point(t.x - h, t.y + h / 2)
      && Transform(ISO, cam, cs[2]) == Point(t.x + w - h, t.y + w / 2 + h / 2)
  {
    var tl := Point(dx, dy);
    ShiftedCorner(cam, tl, w, 0);
    ShiftedCorner(cam, tl, 0, h);
    ShiftedCorner(cam, tl, w, h);
    assert (w + h) / 2 == w / 2 + h / 2;
  }

  /** Adding an even number adds its half to the floored half. */
  lemma HalfOfEvenSum(s: int, e: int)
    requires e % 2 == 0
    ensures (s + e) / 2 == s / 2 + e / 2
  {
    assert e == 2 * (e / 2);
  }

  // ---------------------------------------------------------------------------
  // Texture set and frame (lines 67-80)
  // ---------------------------------------------------------------------------

  /** One entry of `Tilemap.Layer._elements`: `[setNumber, sx, sy, dx, dy, w, h]`. */
  datatype Element = Element(setNumber: nat, sx: int, sy: int, dx: int, dy: int, w: int, h: int)

  /** `setNumber >> 2`: which of the bound textures the quad samples. */
  function TextureId(setNumber: nat): nat
  {
    setNumber / 4
  }

  /** `1024 * (setNumber & 1)`: the horizontal quarter of the texture. */
  function SxOffset(setNumber: nat): (r: nat)
    ensures r == 0 || r == 1024
  {
    1024 * (setNumber % 2)
  }

  /** `1024 * ((setNumber >> 1) & 1)`: the vertical quarter of the texture. */
  function SyOffset(setNumber: nat): (r: nat)
    ensures r == 0 || r == 1024
  {
    1024 * ((setNumber / 2) % 2)
  }

  /** Texture id and the two offsets together determine the set number: four sets
      share one texture, one per 1024-pixel quadrant. */
  lemma {:induction false} SetNumberRoundTrip(setNumber: nat)
    ensures setNumber == 4 * TextureId(setNumber) + 2 * (SyOffset(setNumber) / 1024) + SxOffset(setNumber) / 1024
  {
    var q := setNumber / 2;
    assert setNumber == 2 * q + setNumber % 2;
    assert q == 2 * (q / 2) + q % 2;
    assert q / 2 == setNumber / 4;
  }

  /** The sample origin, offset into the set's quadrant. */
  function SourceX(e: Element): int { e.sx + SxOffset(e.setNumber) }
  function SourceY(e: Element): int { e.sy + SyOffset(e.setNumber) }

  /** The nine numbers written for one vertex: texture id, the frame inset by half a
      texel (`sx + 0.5`, `sy + 0.5`, `sx + w - 0.5`, `sy + h - 0.5`), the texel `(u, v)`
      of this corner and the projected position. */
  function VertexData(e: Element, u: int, v: int, pos: Point): (r: seq<real>)
    ensures |r| == 9
    ensures r[3] - r[1] == e.w as real - 1.0 && r[4] - r[2] == e.h as real - 1.0
    ensures r[7] == pos.x as real && r[8] == pos.y as real
  {
    var sx := SourceX(e);
    var sy := SourceY(e);
    [TextureId(e.setNumber) as real,
     sx as real + 0.5, sy as real + 0.5, (sx + e.w) as real - 0.5, (sy + e.h) as real - 0.5,
     u as real, v as real, pos.x as real, pos.y as real]
  }

  /** The 36 numbers written for one element, corners in TL, TR, BR, BL order. */
  function ElementData(e: Element, cam: Camera): (r: seq<real>)
    ensures |r| == 36
  {
    var cs := Corners(e.dx, e.dy, e.w, e.h);
    var sx := SourceX(e);
    var sy := SourceY(e);
    VertexData(e, sx, sy, Transform(ISO, cam, cs[0]))
    + VertexData(e, sx + e.w, sy, Transform(ISO, cam, cs[1]))
    + VertexData(e, sx + e.w, sy + e.h, Transform(ISO, cam, cs[2]))
    + VertexData(e, sx, sy + e.h, Transform(ISO, cam, cs[3]))
  }

  /** The numbers written for the first `n` elements, one 36-entry block after another. */
  function PackedFirst(es: seq<Element>, n: nat, cam: Camera): (r: seq<real>)
    requires n <= |es|
    ensures |r| == VERTEX_STRIDE * n
  {
    if n == 0 then [] else PackedFirst(es, n - 1, cam) + ElementData(es[n - 1], cam)
  }

  /** The numbers written for a whole element list. */
  function Packed(es: seq<Element>, cam: Camera): (r: seq<real>)
    ensures |r| == VERTEX_STRIDE * |es|
  {
    PackedFirst(es, |es|, cam)
  }

  /** `Tilemap.Layer.VERTEX_STRIDE`: 9 floats of 4 bytes per vertex. */
  const VERTEX_STRIDE: nat := 36

  /** Block `k` of the packed data is element `k`'s data. */
  lemma {:induction false} PackedBlock(es: seq<Element>, cam: Camera, k: nat)
    requires k < |es|
    ensures Packed(es, cam)[VERTEX_STRIDE * k..VERTEX_STRIDE * (k + 1)] == ElementData(es[k], cam)
  {
    PackedFirstBlock(es, |es|, cam, k);
  }

  lemma {:induction false} PackedFirstBlock(es: seq<Element>, n: nat, cam: Camera, k: nat)
    requires k < n <= |es|
    ensures PackedFirst(es, n, cam)[VERTEX_STRIDE * k..VERTEX_STRIDE * (k + 1)] == ElementData(es[k], cam)
  {
    var prev := PackedFirst(es, n - 1, cam);
    assert PackedFirst(es, n, cam) == prev + ElementData(es[n - 1], cam);
    if k < n - 1 {
      PackedFirstBlock(es, n - 1, cam, k);
      assert PackedFirst(es, n, cam)[VERTEX_STRIDE * k..VERTEX_STRIDE * (k + 1)]
          == prev[VERTEX_STRIDE * k..VERTEX_STRIDE * (k + 1)];
    }
  }

  /** Vertex `j` of element `k` starts at `36 * k + 9 * j`, and its last two entries
      are the projected corner `j`. */
  lemma {:induction false} PackedVertexPosition(es: seq<Element>, cam: Camera, k: nat, j: nat)
    requires k < |es| && j < 4
    ensures var base := VERTEX_STRIDE * k + 9 * j;
      var pos := Transform(ISO, cam, Corners(es[k].dx, es[k].dy, es[k].w, es[k].h)[j]);
      Packed(es, cam)[base + 7] == pos.x as real && Packed(es, cam)[base + 8] == pos.y as real
  {
    PackedBlock(es, cam, k);
    var block := ElementData(es[k], cam);
    assert Packed(es, cam)[VERTEX_STRIDE * k + 9 * j + 7] == block[9 * j + 7];
    assert Packed(es, cam)[VERTEX_STRIDE * k + 9 * j + 8] == block[9 * j + 8];
  }

  // ---------------------------------------------------------------------------
  // The layer's vertex array (lines 50-164)
  // ---------------------------------------------------------------------------

  /** A `Tilemap.Layer`: its element list and its growable `Float32Array`. */
  class TileLayer {
    var elements: seq<Element>
    var vertexArray: array<real>

    constructor (elements: seq<Element>, capacity: nat)
      ensures this.elements == elements && vertexArray.Length == capacity
      ensures fresh(vertexArray)
    {
      this.elements := elements;
      vertexArray := new real[capacity](_ => 0.0);
    }

    /** Nine consecutive `vertexArray[index++] = ...` writes. */
    static method PutVertex(a: array<real>, index: nat, vals: seq<real>)
      requires |vals| == 9 && index + 9 <= a.Length
      modifies a
      ensures forall j :: 0 <= j < 9 ==> a[index + j] == vals[j]
      ensures forall i :: 0 <= i < a.Length && (i < index || index + 9 <= i) ==> a[i] == old(a[i])
    {
      a[index] := vals[0];
      a[index + 1] := vals[1];
      a[index + 2] := vals[2];
      a[index + 3] := vals[3];
      a[index + 4] := vals[4];
      a[index + 5] := vals[5];
      a[index + 6] := vals[6];
      a[index + 7] := vals[7];
      a[index + 8] := vals[8];
    }

    /** The 36 writes of one element: its four corners in TL, TR, BR, BL order. */
    static method PutElement(a: array<real>, index: nat, e: Element, cam: Camera)
      requires index + 36 <= a.Length
      modifies a
      ensures forall j :: 0 <= j < 36 ==> a[index + j] == ElementData(e, cam)[j]
      ensures forall i :: 0 <= i < a.Length && (i < index || index + 36 <= i) ==> a[i] == old(a[i])
    {
      var cs := Corners(e.dx, e.dy, e.w, e.h);
      var sx := SourceX(e);
      var sy := SourceY(e);
      var v0 := VertexData(e, sx, sy, Transform(ISO, cam, cs[0]));
      var v1 := VertexData(e, sx + e.w, sy, Transform(ISO, cam, cs[1]));
      var v2 := VertexData(e, sx + e.w, sy + e.h, Transform(ISO, cam, cs[2]));
      var v3 := VertexData(e, sx, sy + e.h, Transform(ISO, cam, cs[3]));
      PutVertex(a, index, v0);
      PutVertex(a, index + 9, v1);
      PutVertex(a, index + 18, v2);
      PutVertex(a, index + 27, v3);
      ghost var block := ElementData(e, cam);
      assert block == v0 + v1 + v2 + v3;
      assert forall j :: 0 <= j < 9 ==> a[index + j] == block[j];
      assert forall j :: 9 <= j < 18 ==> a[index + j] == block[j];
      assert forall j :: 18 <= j < 27 ==> a[index + j] == block[j];
      assert forall j :: 27 <= j < 36 ==> a[index + j] == block[j];
    }

    /** `_updateVertexBuffer`: grows the array to twice the required size only when it
        is too short (a fresh `Float32Array` is zero-filled), then writes 36 numbers per
        element in list order; entries past the written prefix keep their values. */
    method UpdateVertexBuffer(cam: Camera)
      modifies this, vertexArray
      ensures elements == old(elements)
      ensures var required := VERTEX_STRIDE * |elements|;
        && (old(vertexArray.Length) < required ==>
              fresh(vertexArray) && vertexArray.Length == 2 * required
              && forall i :: required <= i < vertexArray.Length ==> vertexArray[i] == 0.0)
        && (required <= old(vertexArray.Length) ==>
              vertexArray == old(vertexArray)
              && forall i :: required <= i < vertexArray.Length ==> vertexArray[i] == old(vertexArray[i]))
        && vertexArray[..required] == Packed(elements, cam)
    {
      var required := VERTEX_STRIDE * |elements|;
      if vertexArray.Length < required {
        vertexArray := new real[required * 2](_ => 0.0);
      }
      FillVertices(vertexArray, elements, cam);
    }

    /** The loop over `_elements`, writing at `index = 36 * k` for element `k`. */
    static method FillVertices(a: array<real>, es: seq<Element>, cam: Camera)
      requires VERTEX_STRIDE * |es| <= a.Length
      modifies a
      ensures a[..VERTEX_STRIDE * |es|] == Packed(es, cam)
      ensures forall i :: VERTEX_STRIDE * |es| <= i < a.Length ==> a[i] == old(a[i])
    {
      var index := 0;
      for k := 0 to |es|
        invariant index == VERTEX_STRIDE * k <= a.Length
        invariant forall i :: 0 <= i < index ==> a[i] == PackedFirst(es, k, cam)[i]
        invariant forall i :: index <= i < a.Length ==> a[i] == old(a[i])
      {
        PutElement(a, index, es[k], cam);
        index := index + 36;
      }
      assert a[..index] == Packed(es, cam);
    }
  }

  // ---------------------------------------------------------------------------
  // Visible region (lines 195-211) and scrolling (lines 213-224)
  // ---------------------------------------------------------------------------

  /** Tiles drawn on each side of the player. */
  const REACH: int := 20

  /** `Tilemap._visibleTiles`. */
  class VisibleTiles {
    var left: int
    var right: int
    var top: int
    var bottom: int

    constructor ()
      ensures left == 0 && right == 0 && top == 0 && bottom == 0
    {
      left, right, top, bottom := 0, 0, 0, 0;
    }

    /** The rectangle is inside the map, contains the player's tile and spans at most
        `2 * REACH` tiles each way. */
    ghost predicate Around(px: int, py: int, mapWidth: int, mapHeight: int)
      reads this
    {
      && 0 <= left <= px < right <= mapWidth && right - left <= 2 * REACH
      && 0 <= top <= py < bottom <= mapHeight && bottom - top <= 2 * REACH
    }

    /** `updateVisibleRegion`: 20 tiles each way around the player, clamped to the map. */
    method UpdateVisibleRegion(px: int, py: int, mapWidth: int, mapHeight: int)
      modifies this
      ensures left == Max(0, px - REACH) && right == Min(mapWidth, px + REACH)
      ensures top == Max(0, py - REACH) && bottom == Min(mapHeight, py + REACH)
      ensures 0 <= px < mapWidth && 0 <= py < mapHeight ==> Around(px, py, mapWidth, mapHeight)
    {
      left := Max(0, px - REACH);
      right := Min(mapWidth, px + REACH);
      top := Max(0, py - REACH);
      bottom := Min(mapHeight, py + REACH);
      ClampedSpan(px, mapWidth);
      ClampedSpan(py, mapHeight);
    }
  }

  function Max(a: int, b: int): int { if a < b then b else a }
  function Min(a: int, b: int): int { if a < b then a else b }

  /** For a player inside `[0, size)`, the clamped window `[max(0, p - 20), min(size, p + 20))`
      contains `p`, lies in the map and is at most 40 wide. */
  lemma ClampedSpan(p: int, size: int)
    ensures 0 <= p < size ==>
      && 0 <= Max(0, p - REACH) <= p < Min(size, p + REACH) <= size
      && Min(size, p + REACH) - Max(0, p - REACH) <= 2 * REACH
  {
  }

  // ---------------------------------------------------------------------------
  // Game_Player.updateScroll (lines 213-224)
  // ---------------------------------------------------------------------------

  /** `Game_Map.setDisplayPos` on one axis of a map that does not loop: with `endX` the
      map size minus the screen size in tiles, a map narrower than the screen is centred
      at `endX / 2`, otherwise the position is clamped to `[0, endX]`. */
  function SetDisplayCoord(x: real, mapSize: int, screenTiles: real): (r: real)
    ensures mapSize as real < screenTiles ==> r == (mapSize as real - screenTiles) / 2.0
    ensures mapSize as real >= screenTiles ==> 0.0 <= r <= mapSize as real - screenTiles
    ensures mapSize as real >= screenTiles && 0.0 <= x <= mapSize as real - screenTiles ==> r == x
  {
    var endX := mapSize as real - screenTiles;
    if endX < 0.0 then endX / 2.0
    else if x < 0.0 then 0.0
    else if x > endX then endX
    else x
  }

  /** Half the screen in tiles, `(Graphics.width / 2) / tileWidth`. */
  function HalfScreen(screenSize: int, t: int): real
    requires t > 0
  {
    (screenSize as real / 2.0) / t as real
  }

  /** The target `updateScroll` hands to `setDisplayPos`, as written: `scrolledX()` is
      `$gameMap.adjustX(_realX)`, which on a map that does not loop is already
      `_realX - displayX`, so the display position is subtracted once more. */
  function ScrollTargetAsWritten(realX: real, displayX: real, screenSize: int, t: int): real
    requires t > 0
  {
    (realX - displayX) - HalfScreen(screenSize, t)
  }

  /** The target that puts the player half a screen from the display origin. */
  function ScrollTargetIntended(realX: real, screenSize: int, t: int): real
    requires t > 0
  {
    realX - HalfScreen(screenSize, t)
  }

  /** The player's distance from the display origin in pixels, `(realX - displayX) * t`. */
  function PlayerOffset(realX: real, displayX: real, t: int): real
  {
    (realX - displayX) * t as real
  }

  /** Half a screen in tiles, times the tile size, is half a screen in pixels. */
  lemma HalfScreenPixels(screenSize: int, t: int)
    requires t > 0
    ensures HalfScreen(screenSize, t) * t as real == screenSize as real / 2.0
  {
    var half := screenSize as real / 2.0;
    assert half / t as real * t as real == half;
  }

  /** Intended: wherever the display was, the player ends up half a screen from the new
      display origin whenever the clamp leaves the target alone. */
  lemma {:induction false} IntendedScrollCentres(realX: real, screenSize: int, t: int, mapSize: int, screenTiles: real)
    requires t > 0
    requires 0.0 <= ScrollTargetIntended(realX, screenSize, t) <= mapSize as real - screenTiles
    ensures var d := SetDisplayCoord(ScrollTargetIntended(realX, screenSize, t), mapSize, screenTiles);
      PlayerOffset(realX, d, t) == screenSize as real / 2.0
  {
    HalfScreenPixels(screenSize, t);
  }

  /** As written, away from the clamp: the player is centred after an update exactly when
      the display stood at 0 before it, and a second update with the player standing
      still puts the display back where it was. */
  lemma {:induction false} AsWrittenScrollAlternates(realX: real, displayX: real, screenSize: int, t: int)
    requires t > 0
    ensures PlayerOffset(realX, ScrollTargetAsWritten(realX, displayX, screenSize, t), t) == screenSize as real / 2.0
            <==> displayX == 0.0
    ensures ScrollTargetAsWritten(realX, ScrollTargetAsWritten(realX, displayX, screenSize, t), screenSize, t) == displayX
  {
    HalfScreenPixels(screenSize, t);
    var h := HalfScreen(screenSize, t);
    assert PlayerOffset(realX, ScrollTargetAsWritten(realX, displayX, screenSize, t), t)
        == (displayX + h) * t as real;
    assert (displayX + h) * t as real == displayX * t as real + h * t as real;
  }

  /** An 816-pixel screen, 48-pixel tiles, a 100-tile map (17 screen tiles) and the
      player standing at x = 30: from display 0 the display jumps to 21.5, then back to
      0, and so on every frame. */
  lemma AsWrittenScrollCounterexample()
    ensures SetDisplayCoord(ScrollTargetAsWritten(30.0, 0.0, 816, 48), 100, 17.0) == 21.5
    ensures SetDisplayCoord(ScrollTargetAsWritten(30.0, 21.5, 816, 48), 100, 17.0) == 0.0
    ensures SetDisplayCoord(ScrollTargetIntended(30.0, 816, 48), 100, 17.0) == 21.5
  {
    assert HalfScreen(816, 48) == 8.5;
  }

  /** The map's display position, which `updateScroll` rewrites every frame. */
  class MapDisplay {
    /** Map size in tiles, `screenTileX()`/`screenTileY()`, tile size and screen size. */
    const mapWidth: int
    const mapHeight: int
    const screenTilesX: real
    const screenTilesY: real
    const tw: int
    const th: int
    const screenWidth: int
    const screenHeight: int
    var displayX: real
    var displayY: real

    constructor (mapWidth: int, mapHeight: int, screenTilesX: real, screenTilesY: real,
                 tw: int, th: int, screenWidth: int, screenHeight: int)
      requires tw > 0 && th > 0
      ensures this.mapWidth == mapWidth && this.mapHeight == mapHeight
      ensures this.screenTilesX == screenTilesX && this.screenTilesY == screenTilesY
      ensures this.tw == tw && this.th == th
      ensures this.screenWidth == screenWidth && this.screenHeight == screenHeight
      ensures displayX == 0.0 && displayY == 0.0
    {
      this.mapWidth, this.mapHeight := mapWidth, mapHeight;
      this.screenTilesX, this.screenTilesY := screenTilesX, screenTilesY;
      this.tw, this.th := tw, th;
      this.screenWidth, this.screenHeight := screenWidth, screenHeight;
      displayX, displayY := 0.0, 0.0;
    }

    /** `Game_Player.updateScroll` as overridden: both axes go through `setDisplayPos`
        with the target computed from `scrolledX()`/`scrolledY()`. */
    method UpdateScroll(realX: real, realY: real)
      requires tw > 0 && th > 0
      modifies this
      ensures displayX == SetDisplayCoord(ScrollTargetAsWritten(realX, old(displayX), screenWidth, tw), mapWidth, screenTilesX)
      ensures displayY == SetDisplayCoord(ScrollTargetAsWritten(realY, old(displayY), screenHeight, th), mapHeight, screenTilesY)
    {
      var scrolledX := realX - displayX;
      var scrolledY := realY - displayY;
      var targetX := scrolledX - (screenWidth as real / 2.0) / tw as real;
      var targetY := scrolledY - (screenHeight as real / 2.0) / th as real;
      displayX := SetDisplayCoord(targetX, mapWidth, screenTilesX);
      displayY := SetDisplayCoord(targetY, mapHeight, screenTilesY);
    }
  }
}
