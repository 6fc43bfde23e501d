# Isometric tile sorting and Paladin menu layout, modelled in Dafny

This project models the computational core of a set of RPG Maker MZ plugins. The plugins
do two things: they draw a map in a 45-degree isometric view, and they skin the menus in
the style of a classic Chinese RPG.

- `TileSort.dfy` (`DynamicTileLayers.js`). A tile whose 16-bit flag word carries a
  non-zero height (`flags[tileId] >> 12`) is promoted to its own sprite at `z = 3`. The
  sprite's sort key is `y + (height - 1) * 48`. Children are ordered by the three-level
  comparator `_compareChildOrder` (`z`, then sort-Y, then a global sprite id). The tilemap
  keeps a list of dynamic sprites that it clears and appends to. The model has a
  `Tilemap` class for that list, a `SpriteIds` class for the global id counter and a
  `DynamicTileSprite` class for the sprite's fields.
- `IsoProjection.dfy` (`IsometricView.js`). The camera-relative affine projection of each
  tile quad: corner minus player anchor, times `[[1, -1], [1/2, 1/2]]`, plus screen
  centre, floored. It also covers packing 36 numbers per element into a growable vertex
  array (a `TileLayer` class over an `array<real>`), the visible-region clamp and the
  player-centred scrolling of the map's display position (a `MapDisplay` class).
- `SaveSlots.dfy` (`palScene.js`). The five-row save/load slot list on the title screen,
  in the load scene and in the main menu. This is one `SlotScene` class with a `kind`.
  It covers cursor wrap-around, half-open touch hit-testing, stacked slot rectangles and
  save-index allocation (`max(0, ...indices) + 1`).
- `WindowLayout.dfy` (`palWindow.js`). Window skin arithmetic:
  - the tiling loops `tileThriceHorz` and `tileThreeTimes`;
  - three-slice bars and the end-cap clamping of `_drawSegment`;
  - the alignment of the Game End window's two bars with its item rectangles;
  - `select`'s redraw set;
  - right-aligned digit strings;
  - the nine-slice menu background margins.
- `StatusScreen.dfy` (`palStatus.js`). The status pager (`_actorIndex` steps and leaves at
  either end), the bitmap digit writer `drawPalNumber` and `drawFraction`, the face cell,
  and the equipment lookup by `etypeId`.
- `Decimal.dfy` holds decimal digit strings (`String(n)`), shared by the digit writers.
  `Arith.dfy` holds a cancellation lemma, and `Opt.dfy` holds `Option`.

Host engine calls have no visible contract here, and they become parameters:
`_isHigherTile`, `isTileA5`, `adjustX`/`adjustY`, tile and screen sizes, `_globalInfo`,
bitmap sizes and readiness, and the equipment list. Drawing calls (`blt`, `drawText`,
`addChild`) are recorded as values: pieces, placements and layer calls.

## Model

| member | source | states |
|---|---|---|
| TileSort.HeightOf | js/plugins/DynamicTileLayers.js:321 | the height `flag >> 12` of a 16-bit flag word lies in 0..15 and is the word's 4096-block |
| TileSort.Classify | js/plugins/DynamicTileLayers.js:317-334 | tile 0 is skipped; a tile is promoted iff its height is positive (height then in 1..15); a height-0 tile goes to the upper layer iff `_isHigherTile`, else to the lower |
| TileSort.PlacementCalls | js/plugins/DynamicTileLayers.js:317-334 | on its own, `_processHighTile` draws a non-empty tile exactly once (as a sprite or as one flat tile) and tile 0 not at all |
| TileSort.LayerCallsAsWritten | js/plugins/DynamicTileLayers.js:227-265 | one layer of `_addSpot` as written always ends with the fall-through call, whatever `_processHighTile` did |
| TileSort.AsWrittenDrawsTileTwice | js/plugins/DynamicTileLayers.js:227-265 | with `_processHighTile` returning `undefined`, every non-zero tile yields two draws in total: sprite plus flat tile, or two flat tiles |
| TileSort.AsWrittenRaisedTileAlsoFlat | js/plugins/DynamicTileLayers.js:227-229 | concrete case: tile 1 with flag `0x2000` in layer 0 becomes a height-2 sprite and is also added by `_addSpotTile` |
| TileSort.IntendedDrawsTileOnce | js/plugins/DynamicTileLayers.js:197-210 | when the helper reports whether it made a sprite, each non-zero tile is drawn exactly once, and a promoted tile adds no flat tile |
| TileSort.RaisedSortY | js/plugins/DynamicTileLayers.js:156 | `_sortY = y - bias` with `bias = -(height - 1) * 48` (line 294) is `y + (height - 1) * 48`; it equals `y` iff the height is 1 |
| TileSort.UnscrolledSortY | js/plugins/DynamicTileLayers.js:136-157 | unscrolled, `y = (my + 1) * th` and `_sortY = (my + 1) * th + (height - 1) * 48` |
| TileSort.SortYExample | js/plugins/DynamicTileLayers.js:148-156 | (worked example) `th = 48`, `my = 5`, height 3 gives `_sortY = 384` |
| TileSort.HeightShadow | js/plugins/DynamicTileLayers.js:286-294 | with 48-pixel tiles, a raised tile sorts after a character whose sort-Y is `(charRow + 1) * 48 - shift` (0 < shift < 48, height at least 1) iff the character stands fewer than `height` rows below the tile's own row |
| TileSort.Compare | js/plugins/DynamicTileLayers.js:302-315 | the comparator is negative iff `(z, sortY or y, spriteId)` of `a` is lexicographically smaller than that of `b`, positive iff it is larger |
| TileSort.CompareZeroOnEqualKeys | js/plugins/DynamicTileLayers.js:302-315 | the comparator is zero iff the two keys agree in `z`, depth `y` and sprite id |
| TileSort.CompareAntisymmetric | js/plugins/DynamicTileLayers.js:302-315 | `cmp(a, b) < 0` iff `cmp(b, a) > 0`, and `cmp(a, b) == 0` iff `cmp(b, a) == 0` |
| TileSort.CompareTransitive | js/plugins/DynamicTileLayers.js:302-315 | `cmp(a, b) < 0` and `cmp(b, c) < 0` give `cmp(a, c) < 0` |
| TileSort.CompareTotalOnIds | js/plugins/DynamicTileLayers.js:302-315 | distinct sprite ids never compare equal; exactly one of the two orders holds |
| TileSort.TileFrame | js/plugins/DynamicTileLayers.js:106-124 | the frame is one tile in size; it comes from sheet 4 iff the tile is A5, otherwise from the B..E sheet whose 256-tile block holds the tile |
| TileSort.FrameInSheet | js/plugins/DynamicTileLayers.js:119-124 | `sx` lies in `[0, 16w)` with `sx + w <= 16w`, and likewise `sy` with `h` |
| TileSort.FrameCellRoundTrip | js/plugins/DynamicTileLayers.js:121-122 | the frame's column and row give back `tileId % 256` |
| TileSort.FrameDeterminesTile | js/plugins/DynamicTileLayers.js:106-124 | two tiles of the same 256-block with positive cell sizes get the same frame only if they are the same tile |
| TileSort.SpriteIds.Take | js/plugins/DynamicTileLayers.js:268-277 | each `Sprite` construction takes the counter's value and increments it |
| TileSort.DynamicTileSprite.constructor | js/plugins/DynamicTileLayers.js:24-42 | stores tile, cell, bias and height at `z = 3`; takes one id for itself and the next for its debug label; sets the frame and position |
| TileSort.DynamicTileSprite.UpdatePosition | js/plugins/DynamicTileLayers.js:136-157 | `x = floor(adjustX(mx) * tw)`, `y = floor((adjustY(my) + 1) * th)`, `_sortY = y - _sortBias` |
| TileSort.Tilemap.constructor | js/plugins/DynamicTileLayers.js:160-164 | the sprite list and the layer record start empty |
| TileSort.Tilemap.ClearDynamicSprites | js/plugins/DynamicTileLayers.js:181-189 | every previously listed sprite is detached and destroyed, and the list is empty |
| TileSort.Tilemap.AddDynamicTile | js/plugins/DynamicTileLayers.js:279-299 | appends exactly one sprite with bias `-(height - 1) * 48` and the next free id; the rest of the list is unchanged |
| TileSort.Tilemap.ProcessHighTile | js/plugins/DynamicTileLayers.js:317-334 | appends the sprite for a raised tile, or the fall-through layer call for a flat tile, or nothing for tile 0 |
| TileSort.Tilemap.AddFlat | js/plugins/DynamicTileLayers.js:251-265 | the fall-through in `_addSpot`: layers 0/1 use `_addSpotTile`, layers 2/3 the upper layer iff higher |
| TileSort.Tilemap.AddLayer | js/plugins/DynamicTileLayers.js:227-265 | one layer of `_addSpot`: high-tile processing, then the unconditional fall-through |
| TileSort.Tilemap.AddSpot | js/plugins/DynamicTileLayers.js:213-266 | the sprites of one cell are those of its four layers in order, and the layer calls are the as-written ones |
| TileSort.Tilemap.AddAllSpots | js/plugins/DynamicTileLayers.js:175-179 | the old sprites are destroyed first; then the list is exactly the promoted tiles of all cells in order, and the call log (a record of the calls made, not the layers' contents, which the host clears at the start of each pass) grows by exactly the as-written calls of all cells in order |
| TileSort.Tilemap.AddSpots | js/plugins/DynamicTileLayers.js:175-179 | the walk over the cells: `_addSpot` once per cell in order appends those cells' sprites and layer calls |
| TileSort.LayerDraws | js/plugins/DynamicTileLayers.js:227-265 | as written, one layer of `_addSpot` makes one draw for tile 0 (an ignored flat call) and two for any other tile |
| TileSort.SpotDraws | js/plugins/DynamicTileLayers.js:213-266 | as written, one cell makes four draws plus one for each non-empty tile |
| TileSort.AsWrittenMapDrawsExtra | js/plugins/DynamicTileLayers.js:175-179 | as written, a whole pass makes `4n` draws plus one extra for every non-empty tile of its `n` cells |
| TileSort.Tilemap.IdsIncrease | js/plugins/DynamicTileLayers.js:269-277 | sprite ids increase strictly along the list |
| TileSort.Tilemap.ListedSpritesNeverTie | js/plugins/DynamicTileLayers.js:302-315 | no two listed sprites compare equal |
| IsoProjection.IsoClosedForm | js/plugins/IsometricView.js:28-32 | with the shipped matrix a corner maps to `(dx - dy + floor(W/2), floor((dx + dy + H) / 2))` relative to the anchor |
| IsoProjection.TranslationIgnored | js/plugins/IsometricView.js:59-64 | the matrix's `tx`/`ty` never affect the projection |
| IsoProjection.ScreenCentre | js/plugins/IsometricView.js:173-181 | every character is drawn at `(floor(W/2), floor(H/2))` |
| IsoProjection.AnchorMapsToCentre | js/plugins/IsometricView.js:88-116 | for any matrix, the player's anchor pixel projects to the point where characters are drawn |
| IsoProjection.Corners | js/plugins/IsometricView.js:96-101 | four corners in TL, TR, BR, BL order |
| IsoProjection.ShiftedCorner | js/plugins/IsometricView.js:104-116 | moving a corner by `(ex, ey)` with even `ex + ey` moves its image by `(ex - ey, (ex + ey) / 2)` |
| IsoProjection.QuadIsDiamond | js/plugins/IsometricView.js:96-116 | an even `w x h` quad projects to a diamond: right corner `(+w, +w/2)`, left `(-h, +h/2)`, bottom `(w - h, (w + h)/2)` from the top |
| IsoProjection.SxOffset | js/plugins/IsometricView.js:69 | `1024 * (setNumber & 1)` is 0 or 1024 |
| IsoProjection.SyOffset | js/plugins/IsometricView.js:70 | `1024 * ((setNumber >> 1) & 1)` is 0 or 1024 |
| IsoProjection.SetNumberRoundTrip | js/plugins/IsometricView.js:67-70 | `tid` and the two offsets together give back `setNumber` |
| IsoProjection.VertexData | js/plugins/IsometricView.js:77-80 | nine entries; `frameRight - frameLeft = w - 1`, `frameBottom - frameTop = h - 1`; the last two are the projected corner |
| IsoProjection.ElementData | js/plugins/IsometricView.js:118-161 | one element is 36 numbers |
| IsoProjection.PackedFirst | js/plugins/IsometricView.js:66-162 | the first `n` elements pack to `36 * n` numbers |
| IsoProjection.Packed | js/plugins/IsometricView.js:66-162 | the whole list packs to `36 * |elements|` numbers |
| IsoProjection.PackedBlock | js/plugins/IsometricView.js:66-162 | element `k` occupies exactly `[36k, 36k + 36)` |
| IsoProjection.PackedFirstBlock | js/plugins/IsometricView.js:66-162 | the same for any prefix that includes element `k` |
| IsoProjection.PackedVertexPosition | js/plugins/IsometricView.js:118-161 | vertex `j` of element `k` carries its projected corner at `36k + 9j + 7` and `+ 8` |
| IsoProjection.TileLayer.constructor | js/plugins/IsometricView.js:50-56 | a layer holds its element list and its vertex array |
| IsoProjection.TileLayer.PutVertex | js/plugins/IsometricView.js:119-128 | nine consecutive `vertexArray[index++]` writes; the rest of the array is unchanged |
| IsoProjection.TileLayer.PutElement | js/plugins/IsometricView.js:118-161 | one element's 36 writes; the rest of the array is unchanged |
| IsoProjection.TileLayer.FillVertices | js/plugins/IsometricView.js:66-162 | after the loop the prefix `[0, 36n)` is the packed list and the rest is unchanged |
| IsoProjection.TileLayer.UpdateVertexBuffer | js/plugins/IsometricView.js:50-164 | reallocates a zeroed array of twice the required size only when it is too short, otherwise keeps the array; the prefix is the packed list |
| IsoProjection.VisibleTiles.constructor | js/plugins/IsometricView.js:195-211 | an empty region |
| IsoProjection.VisibleTiles.UpdateVisibleRegion | js/plugins/IsometricView.js:196-211 | `left = max(0, px - 20)`, `right = min(width, px + 20)`, likewise top and bottom; a player inside the map is inside the region |
| IsoProjection.ClampedSpan | js/plugins/IsometricView.js:207-210 | for a player inside the map, the clamped span contains it, lies inside the map and is at most 40 wide |
| IsoProjection.SetDisplayCoord | js/plugins/IsometricView.js:219-223 | `setDisplayPos` on one axis: a map narrower than the screen is centred at `endX / 2`; otherwise the result lies in `[0, endX]` and is the target itself when that already does |
| IsoProjection.IntendedScrollCentres | js/plugins/IsometricView.js:213-224 | with the target `realX - W/(2 tw)`, the player ends up half a screen from the display origin whenever the clamp leaves the target alone |
| IsoProjection.AsWrittenScrollAlternates | js/plugins/IsometricView.js:213-224 | with the target `scrolledX() - W/(2 tw)`, the player is centred after an update iff the display stood at 0, and a second update puts the display back where it was |
| IsoProjection.AsWrittenScrollCounterexample | js/plugins/IsometricView.js:213-224 | 816-pixel screen, 48-pixel tiles, 100-tile map, player at x = 30: the display goes 0, 21.5, 0; the intended target gives 21.5 |
| IsoProjection.MapDisplay.constructor | js/plugins/IsometricView.js:213-224 | a display at (0, 0) over a map of the given size, tile size and screen size |
| IsoProjection.MapDisplay.UpdateScroll | js/plugins/IsometricView.js:213-224 | each axis's new display position is `setDisplayPos` of `scrolled - half screen`, where `scrolled` is the real position minus the old display position |
| SaveSlots.SlotRect | js/plugins/palScene.js:458-469 | row `i` has `y = floor((boxHeight - 550) / 2) + 110i`, height 102 and positive width; the load scene takes its x and width from `gameEndWindowRect` (lines 209-220) |
| SaveSlots.SlotHitPixels | js/plugins/palScene.js:541-566 | in the menu and on the title, a touch hits row `i` exactly for `600 <= x < 850` and `top <= y < top + 102` (rows from lines 458-469) |
| SaveSlots.RowsDisjoint | js/plugins/palScene.js:458-469 | later rows start at least 110 pixels lower; no point lies in two rows under the half-open test |
| SaveSlots.CursorUp | js/plugins/palScene.js:517-523 | `(s - 1 + 5) % 5`: from 0 to 4, otherwise one up; always in `[0, 5)` |
| SaveSlots.CursorDown | js/plugins/palScene.js:524-530 | `(s + 1) % 5`: from 4 to 0, otherwise one down; always in `[0, 5)` |
| SaveSlots.CursorRoundTrip | js/plugins/palScene.js:517-530 | up then down and down then up return to the same row |
| SaveSlots.StoredIndex | js/plugins/palScene.js:488-489 | non-zero iff `info[i + 1]` exists with a non-zero `palSaveIndex`, which it then is |
| SaveSlots.StoredIndices | js/plugins/palScene.js:485-492 | five entries; entry `i` is non-zero iff save file `i + 1` exists with a non-zero `palSaveIndex`, and it is then that index |
| SaveSlots.MaxIndex | js/plugins/palScene.js:571 | `Math.max(0, ...s)`: at least 0 and every element, and 0 or an element |
| SaveSlots.NextSaveIndex | js/plugins/palScene.js:571-572 | at least 1 and strictly above every current index |
| SaveSlots.SavedRowIsNewest | js/plugins/palScene.js:569-573 | after a save the saved row holds the strictly largest index |
| SaveSlots.SlotScene.constructor | js/plugins/palScene.js:175-207 | the load scene creates the rows, fills their indices, shows each row's stored index (`setSlotData` in `start`) and starts listening on row 0; the menu and title start closed with every row showing 0 (lines 51, 449) |
| SaveSlots.SlotScene.LoadSaveIndices | js/plugins/palScene.js:485-492 | the loop stores `StoredIndices(info)` |
| SaveSlots.SlotScene.ContinuePaladin | js/plugins/palScene.js:57-71 | the title shows all rows with their indices, selects row 0 and deactivates the command window |
| SaveSlots.SlotScene.Command | js/plugins/palScene.js:422-432 | the menu sets the mode, then opens the rows |
| SaveSlots.SlotScene.OpenSaveSlots | js/plugins/palScene.js:472-482 | every row shows its index and is visible; row 0 is selected and the only active one |
| SaveSlots.SlotScene.CloseSaveSlots | js/plugins/palScene.js:495-501 | every row is hidden and inactive with nothing else in it changed; the owner window is active again; selection, indices and mode are kept |
| SaveSlots.SlotScene.MoveCursor | js/plugins/palScene.js:519-529 | exactly the new row is active; nothing else in any row changes |
| SaveSlots.SlotScene.HitSlot | js/plugins/palScene.js:541-566 | the first row whose half-open rectangle holds the touch, or none |
| SaveSlots.SlotScene.DoSave | js/plugins/palScene.js:569-573 | the saved row gets `max(0, ...indices) + 1`; the other rows keep theirs |
| SaveSlots.SlotScene.Confirm | js/plugins/palScene.js:531-539 | OK saves or loads according to the scene and `_saveMode` |
| SaveSlots.SlotScene.UpdateInput | js/plugins/palScene.js:512-567 | not listening: nothing; cancel closes (menu, title) or pops (load scene); up/down move with wrap-around; OK confirms; a touch on the selected row confirms, on another row moves, outside all rows does nothing; the rows' shown indices and the mode never change, and the owner window changes only on close |
| SaveSlots.ConfirmEffect | js/plugins/palScene.js:531-539 | saves iff the menu is in save mode, with an index above all current ones; otherwise loads that row |
| SaveSlots.TouchCancelOnlyOutsideLoad | js/plugins/palScene.js:513 | a touch-cancel alone closes the rows in the menu and on the title (also line 84), while the load scene (line 229) ignores it; nothing but the three cancel inputs counts |
| WindowLayout.SpansFrom | js/plugins/palWindow.js:243-249 | the `for (x += tileW)` loop yields no stretch iff it starts at or past the end |
| WindowLayout.SpansInside | js/plugins/palWindow.js:243-249 | each stretch is non-empty, at most a tile wide and inside `[x, d)`; the first starts at `x`, the last ends at `d` |
| WindowLayout.SpansAbut | js/plugins/palWindow.js:243-249 | consecutive stretches meet without gap or overlap |
| WindowLayout.SpansTotal | js/plugins/palWindow.js:243-249 | the stretch lengths sum to `d - x`, or 0 when there is no room |
| WindowLayout.TileRow | js/plugins/palWindow.js:241-251 | the loop produces exactly the row over the tiling of `[0, dw)` |
| WindowLayout.TileThriceHorz | js/plugins/palWindow.js:241-251 | the pieces are the horizontal tiling of the centre image |
| WindowLayout.GridLength | js/plugins/palWindow.js:379-388 | rows times columns pieces |
| WindowLayout.TileThreeTimes | js/plugins/palWindow.js:374-389 | the nested loops produce the grid tiling; nothing when `dw <= 0` or `dh <= 0` |
| WindowLayout.GridCell | js/plugins/palWindow.js:379-388 | the piece in row `r`, column `c` covers exactly the `r`-th vertical and `c`-th horizontal stretch |
| WindowLayout.Round | js/plugins/palWindow.js:601-602 | `Math.round`: within half of the value, halves up |
| WindowLayout.HorzBarBackground | js/plugins/palWindow.js:203-235 | left cap at 0 with three times its width, right cap ending at `w`, centre tiles from the left cap's end to the right cap's start |
| WindowLayout.ScaledWidth | js/plugins/palWindow.js:600-603 | a cap scaled to a non-negative height is non-negative |
| WindowLayout.CapWidths | js/plugins/palWindow.js:600-613 | each cap is at most its scaled width; for `dw >= 0`: `0 <= safeLW <= floor(dw/2)`, `0 <= safeRW`, `safeLW + safeRW <= dw` |
| WindowLayout.Segment | js/plugins/palWindow.js:594-617 | left cap at `dx`, right cap ending at `dx + dw`; the centre tiles run from the left cap's end to the right cap's start, and without centre tiles the caps meet |
| WindowLayout.SegmentJoins | js/plugins/palWindow.js:594-617 | the centre tiles' total width is exactly `dw - safeLW - safeRW` |
| WindowLayout.GameEndBackground | js/plugins/palWindow.js:583-592 | "No" bar at 0, "Yes" bar at `floor((w - 48)/2) + 48` |
| WindowLayout.GameEndItemRect | js/plugins/palWindow.js:620-625 | item 0 at x = 0 and every other item at `floor((w - 48)/2) + 48`, each `floor((w - 48)/2)` wide and 102 high at y = 0 (`floor(w/2 - 24)` equals `floor((w - 48)/2)`) |
| WindowLayout.ItemsOnSegments | js/plugins/palWindow.js:583-592 | each command's rectangle starts where its bar starts and is as wide as it (items from lines 620-625) |
| WindowLayout.SelectRedraws | js/plugins/palWindow.js:90-99 | the old item is redrawn iff it is at least 0 and differs; the new item is redrawn iff it is at least 0, last and once |
| WindowLayout.CommandCursor.constructor | js/plugins/palWindow.js:27-29 | `initialize` ends with item 0 selected through the overriding `select` (lines 90-99) |
| WindowLayout.CommandCursor.Select | js/plugins/palWindow.js:90-99 | stores the new index and redraws exactly `SelectRedraws(old, new)` |
| WindowLayout.LayOutDigits | js/plugins/palWindow.js:741-761 | digit `k` starts at `w - 30 - total + advance(k)` with `2 * width + 1` per digit; the pen ends at `w - 30` |
| WindowLayout.SaveSlotDigits | js/plugins/palWindow.js:741-761 | one position per digit of the save index; digit `k` at `w - 30 - total + advance(k)`, so the number ends at `w - 30` |
| WindowLayout.GoldDigits | js/plugins/palWindow.js:522-546 | one position per digit of the gold amount's absolute value; digit `k` at `w - 30 - total + advance(k)`, so the number ends at `w - 30` |
| WindowLayout.Max3 | js/plugins/palWindow.js:347-356 | the largest of three |
| WindowLayout.Margins | js/plugins/palWindow.js:347-356 | margins are 66 on the left and 99 on the right |
| WindowLayout.MenuBackground | js/plugins/palWindow.js:334-372 | nine areas |
| WindowLayout.MenuFrameJoins | js/plugins/palWindow.js:358-371 | the top row meets end to end across the full width; the centre meets the left and top edges and the bottom edge; the right edge is 69 wide and the bottom-right corner stops 6 short |
| StatusScreen.NextPage | js/plugins/palStatus.js:115-124 | a next member exists iff `i < members - 1`, and it is `i + 1` |
| StatusScreen.PreviousPage | js/plugins/palStatus.js:126-135 | a previous member exists iff `i > 0`, and it is `i - 1` |
| StatusScreen.PagingRoundTrip | js/plugins/palStatus.js:115-135 | next then previous, and previous then next, return to the same member; both stay in `[0, members)` |
| StatusScreen.PagesFrom | js/plugins/palStatus.js:115-124 | `k` forward steps from `i` reach `i + k` while that is a member |
| StatusScreen.LastStepLeaves | js/plugins/palStatus.js:115-124 | paging forward `members - i` times leaves the screen |
| StatusScreen.StatusScene.constructor | js/plugins/palStatus.js:76-79 | the scene starts on member 0 |
| StatusScreen.StatusScene.ProcessNext | js/plugins/palStatus.js:115-124 | increments below the last member, otherwise pops and keeps the index |
| StatusScreen.StatusScene.ProcessPrevious | js/plugins/palStatus.js:126-135 | decrements above 0, otherwise pops and keeps the index |
| StatusScreen.StatusScene.Update | js/plugins/palStatus.js:103-113 | forward keys/touch move to the next member, or pop and keep the index at the last; otherwise backward keys move to the previous member, or pop at the first; otherwise cancel keys pop; nothing else changes the index |
| StatusScreen.FontFor | js/plugins/palStatus.js:336-339 | white, blue or green digits; an unknown type draws nothing |
| StatusScreen.DrawnWidth | js/plugins/palStatus.js:334-352 | the pen's advance is a multiple of 3 (each digit drawn at three times its width) and 0 for an unknown colour |
| StatusScreen.Placements | js/plugins/palStatus.js:334-352 | at most one placement per digit, none for an unknown colour |
| StatusScreen.DrawPalNumber | js/plugins/palStatus.js:329-353 | the loop's width is the sum of `3 * width` over ready digits and its placements are exactly those of the ready digits |
| StatusScreen.DrawnWidthBounds | js/plugins/palStatus.js:334-352 | unready digits only shorten the number, and with every bitmap ready every digit is placed |
| StatusScreen.PlacementsAdvance | js/plugins/palStatus.js:334-352 | every placed digit lies between `x` and `x + width` |
| StatusScreen.DrawFraction | js/plugins/palStatus.js:307-327 | the slash at `x + w1 + 4`, the maximum at `slashX + 2 * slashWidth + 4`; neither when the slash bitmap is not ready |
| StatusScreen.FaceSource | js/plugins/palStatus.js:209-210 | `sx = (faceIndex % 4) * pw` lies inside the sheet's four columns |
| StatusScreen.FaceSourceInjective | js/plugins/palStatus.js:209-210 | with positive cell sizes, distinct faces have distinct cells |
| StatusScreen.FindEquip | js/plugins/palStatus.js:400 | `find` answers an item from the list with the requested type, or none iff no slot holds one |
| StatusScreen.FindEquipIndex | js/plugins/palStatus.js:400 | the first slot holding an item of the type, or none |
| StatusScreen.FindIsFirst | js/plugins/palStatus.js:400 | `find` answers the item in that first matching slot |
| StatusScreen.Mapping | js/plugins/palStatus.js:374-381 | six entries with types 2, 4, 3, 1, 5, 6 |
| StatusScreen.DrawEquips | js/plugins/palStatus.js:356-414 | each mapping entry draws the first matching item's icon 36 pixels below its place, or nothing |
| Decimal.Digits | js/plugins/palStatus.js:330 | `String(n)` as digits: non-empty, each below 10, no leading zero, last digit `n % 10` |
| Decimal.ValueOfDigits | js/plugins/palStatus.js:330 | the digits read back as `n` |
| Decimal.DigitsInjective | js/plugins/palWindow.js:741 | different numbers have different digit strings |
| Decimal.Abs | js/plugins/palWindow.js:522 | `Math.abs`: `v` or `-v`, never negative |

## Left out

- Bitmap and asset plumbing: `blt`, `drawText`, `ImageManager` loads, load-listener retries and dedup sets, PIXI scale modes. Drawing is recorded as pieces and placements; bitmap readiness is an input.
- Audio toggles, `ConfigManager` and `SceneManager` transitions other than the pop and load effects returned by `UpdateInput`.
- The asynchronous save and load flows (`DataManager.saveGame`/`loadGame`, the `makeSavefileInfo` patch, `_doLoad`, `_doTitleLoad`). `DoSave` models the index allocation at `palScene.js:569-573`. The later `setSlotData` after the save promise resolves is not modelled, so a saved row's label is not refreshed in the model.
- The breathing highlight colour driven by `Date.now()` in `palWindow.js`.
- `js/plugins/PaladinMenu.js` and `js/plugins/Pal_Icon48.js` are not part of this model. The first duplicates the gold digit layout modelled by `WindowLayout.GoldDigits`; the second is a filename redirect.
- The definitions in `DynamicTileLayers.js` at lines 60-96 and 191-210 are replaced later in the same file and never run. Lines 197-210 appear only as the intended behaviour in the finding below. The debug height label (lines 44-56) is kept only as the second sprite id it consumes.
- The comment at `DynamicTileLayers.js:286-292` speaks of a bias of `-(height * 48)` and of a tile-height bias; the model follows the code at line 294, `-(height - 1) * 48`, with the constant 48.
- Float32 rounding of the vertex array is not modelled; entries are exact reals. No inverse projection or coefficient validation exists in the code, and none is modelled.
- IsoProjection.MapDisplay.UpdateScroll: requires positive tile sizes; the source would divide by zero. The engine's `adjustX`/`adjustY` (`x - displayX` on a map that does not loop) and `setDisplayPos` (clamp to `[0, endX]`, or `endX / 2` when the map is narrower than the screen) come from RPG Maker MZ's `rmmz_objects.js`, which is not part of this model; they are written out as `ScrollTargetAsWritten` and `SetDisplayCoord` as the engine defines them. Looping maps, parallax positions and `screenTileX()`/`screenTileY()` (taken as the constants `screenTilesX`/`screenTilesY`) are not modelled.
- IsoProjection.Transform: has no contract of its own; its properties are stated as lemmas (`IsoClosedForm`, `TranslationIgnored`, `AnchorMapsToCentre`, `ShiftedCorner`, `QuadIsDiamond`).
- Corner and element coordinates (`Point`, `Element`) are integers, so the autotile half-tile quads (`tw / 2`, `th / 2`) are exact only when tile sizes are even; odd tile sizes, which would give fractional corners in the source, are not modelled.
- Windows are modelled as values inside the scene (`SlotWindow` records), not as separate objects with their own identity; aliasing between windows is not captured.
- The host's enumeration of cells for `_addAllSpots`, `_readMapData`, `_isHigherTile`, `isTileA5`, `adjustX`/`adjustY` and the table-edge and shadow drawing in `_addSpot` are parameters or left out; only the four tile layers' routing is modelled.
- `drawStats` label positions, name and background centring, the face destination rectangle, `MenuBase.itemRect` offsets and the per-frame redraw in `Window_PaladinBase.update` are draw-call geometry without stated intent.
- StatusScreen.DrawPalNumber: takes a natural number; `String` of a negative value would draw a `-` with no digit bitmap.
- WindowLayout.SaveSlotDigits: takes a natural save index (negative indices do not arise from `NextSaveIndex`) and does not model the early return at `palWindow.js:739` when the digit images are not ready.
- WindowLayout.GoldDigits: does not model the guard at `palWindow.js:535` that skips drawing when no digit images are loaded; the positions are those drawn when they are.
- WindowLayout.TileThreeTimes: requires a source image of positive width and height; with a zero-width image the source loop would not terminate.
- WindowLayout.TileThriceHorz: requires a centre image of positive width, for the same reason.
- Slot labels and item names are strings and carried along, but their text is not modelled.

## Findings

| source | as written | input that shows it | evidently intended | confidence | as-written member | corrected member |
|---|---|---|---|---|---|---|
| js/plugins/DynamicTileLayers.js:317-334 | the last `_processHighTile` returns `undefined`, so `_addSpot` (lines 227-265) always runs its fall-through as well, and every non-zero tile in every layer is drawn twice: a flat tile in layer 0 or 1 is added by `_addTile` (lines 328-332) and again by `_addSpotTile` (lines 228, 234); a flat tile in layer 2 or 3 is added by `_addTile` and again at lines 252-256 or 260-264; a raised tile becomes a sprite (line 325) and is also drawn flat by the fall-through | tile 1 with flag word `0x2000` in layer 0: one height-2 sprite and one flat tile | report whether a sprite was made, as the earlier definition at lines 197-210 does, so each tile is drawn exactly once | not executed | TileSort.AsWrittenDrawsTileTwice | TileSort.IntendedDrawsTileOnce |
| js/plugins/IsometricView.js:219-223 | the target is `scrolledX() - W / (2 tw)`, but `scrolledX()` is `adjustX(_realX)` = `_realX - displayX`, so the old display position is subtracted a second time and, with the player standing still, the display alternates between two positions | 816-pixel screen, 48-pixel tiles, a 100-tile map (17 screen tiles), player at x = 30: display 0 becomes 21.5, then 0, then 21.5 (`IsoProjection.AsWrittenScrollCounterexample`) | `setDisplayPos(_realX - W / (2 tw), ...)`, which keeps the player half a screen from the display origin | not executed | IsoProjection.AsWrittenScrollAlternates | IsoProjection.IntendedScrollCentres |
