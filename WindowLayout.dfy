/** Window skin layout (js/plugins/palWindow.js).

    The windows are drawn from small bitmaps blitted at three times their size: nine
    slices for the menu frames, three slices for the horizontal bars. This module keeps
    the arithmetic of those draws: where each blit lands and how large it is. A blit is
    recorded as a `Piece`; the bitmaps themselves are only their sizes. */
module WindowLayout {
  import opened Decimal

  /** The size of a loaded skin bitmap. */
  datatype Image = Image(width: nat, height: nat)

  /** One `bitmap.blt(source, 0, 0, sw, sh, x, y, w, h)`: the source region it reads and
      the destination rectangle it fills. */
  datatype Piece = Piece(sw: real, sh: real, x: int, y: int, w: int, h: int)

  /** Every skin bitmap is drawn at three times its size. */
  const SCALE: int := 3

  function Min(a: int, b: int): int { if a <= b then a else b }

  // ---------------------------------------------------------------------------
  // One axis of a tiling loop: `for (x = 0; x < d; x += t)` with `min(t, d - x)`
  // ---------------------------------------------------------------------------

  /** A stretch `[at, at + len)` along one axis. */
  datatype Span = Span(at: int, len: int)

  function End(s: Span): int { s.at + s.len }

  /** The sum of the lengths. */
  function TotalLen(ss: seq<Span>): int
  {
    if ss == [] then 0 else ss[0].len + TotalLen(ss[1..])
  }

  /** The stretches the loop visits from `x` on: one tile length at a time, the last
      one cut off at `d`. */
  function SpansFrom(x: int, d: int, t: int): (r: seq<Span>)
    requires t > 0
    ensures r == [] <==> x >= d
    decreases d - x
  {
    if x >= d then [] else [Span(x, Min(t, d - x))] + SpansFrom(x + t, d, t)
  }

  /** Each stretch is non-empty, no longer than a tile and inside `[x, d)`; the first
      starts at `x` and the last ends at `d`. */
  lemma {:induction false} SpansInside(x: int, d: int, t: int)
    requires t > 0
    ensures var r := SpansFrom(x, d, t);
      && (forall i :: 0 <= i < |r| ==> 0 < r[i].len <= t && x <= r[i].at && End(r[i]) <= d)
      && (r != [] ==> r[0].at == x && End(r[|r| - 1]) == d)
    decreases d - x
  {
    if x < d {
      SpansInside(x + t, d, t);
      var rest := SpansFrom(x + t, d, t);
      var r := SpansFrom(x, d, t);
      assert forall i :: 1 <= i < |r| ==> r[i] == rest[i - 1];
    }
  }

  /** Each stretch ends where the next begins: no gap and no overlap. */
  ghost predicate Abutting(r: seq<Span>)
  {
    forall i, j :: 0 <= i && j == i + 1 && j < |r| ==> End(r[i]) == r[j].at
  }

  /** The stretches of a tiling loop abut. */
  lemma {:induction false} SpansAbut(x: int, d: int, t: int)
    requires t > 0
    ensures Abutting(SpansFrom(x, d, t))
    decreases d - x
  {
    if x < d {
      SpansAbut(x + t, d, t);
      var rest := SpansFrom(x + t, d, t);
      var r := SpansFrom(x, d, t);
      forall i, j | 0 <= i && j == i + 1 && j < |r|
        ensures End(r[i]) == r[j].at
      {
        assert r[j] == rest[j - 1];
        if i == 0 {
          assert x + t < d;
          assert r[0] == Span(x, t);
          assert rest[0].at == x + t;
        } else {
          assert r[i] == rest[i - 1];
          var i', j' := i - 1, j - 1;
          assert 0 <= i' && j' == i' + 1 && j' < |rest|;
        }
      }
    }
  }

  /** The lengths add up to what is left between `x` and `d`. */
  lemma {:induction false} SpansTotal(x: int, d: int, t: int)
    requires t > 0
    ensures TotalLen(SpansFrom(x, d, t)) == if x < d then d - x else 0
    decreases d - x
  {
    if x < d {
      SpansTotal(x + t, d, t);
      assert SpansFrom(x, d, t)[1..] == SpansFrom(x + t, d, t);
    }
  }

  // ---------------------------------------------------------------------------
  // tileThriceHorz (241-251) and tileThreeTimes (374-389)
  // ---------------------------------------------------------------------------

  /** The blits of one row of tiles at height `y`, `h` high, reading `sh` source rows;
      each reads a third of the width it fills. */
  function Row(dx: int, y: int, h: int, sh: real, xs: seq<Span>): seq<Piece>
  {
    seq(|xs|, i requires 0 <= i < |xs| => Piece(xs[i].len as real / 3.0, sh, dx + xs[i].at, y, xs[i].len, h))
  }

  /** What `tileThriceHorz` draws. */
  function HorzTiles(center: Image, dx: int, dy: int, dw: int, dh: int): seq<Piece>
    requires center.width > 0
  {
    Row(dx, dy, dh, center.height as real, SpansFrom(0, dw, center.width * SCALE))
  }

  /** One more turn of a tiling loop: the stretch at `x` moves from what is left to
      what is done. */
  lemma SpansStep(done: seq<Span>, x: int, d: int, t: int, all: seq<Span>)
    requires t > 0 && x < d && done + SpansFrom(x, d, t) == all
    ensures (done + [Span(x, Min(t, d - x))]) + SpansFrom(x + t, d, t) == all
  {
    var s := Span(x, Min(t, d - x));
    assert SpansFrom(x, d, t) == [s] + SpansFrom(x + t, d, t);
    assert (done + [s]) + SpansFrom(x + t, d, t) == done + ([s] + SpansFrom(x + t, d, t));
  }

  /** A row with one more stretch has one more piece at its end. */
  lemma RowSnoc(dx: int, y: int, h: int, sh: real, xs: seq<Span>, s: Span)
    ensures Row(dx, y, h, sh, xs + [s]) == Row(dx, y, h, sh, xs) + [Piece(s.len as real / 3.0, sh, dx + s.at, y, s.len, h)]
  {
    assert (xs + [s])[|xs|] == s;
    assert forall i :: 0 <= i < |xs| ==> (xs + [s])[i] == xs[i];
  }

  /** The loop `for (x = 0; x < dw; x += tileW)` with one blit per turn, the last one
      cut short: one row of tiles `h` high at height `y`, reading `sh` source rows. */
  method TileRow(dx: int, y: int, dw: int, h: int, sh: real, tileW: int) returns (pieces: seq<Piece>)
    requires tileW > 0
    ensures pieces == Row(dx, y, h, sh, SpansFrom(0, dw, tileW))
  {
    ghost var all := SpansFrom(0, dw, tileW);
    ghost var done: seq<Span> := [];
    pieces := [];
    var x := 0;
    while x < dw
      invariant done + SpansFrom(x, dw, tileW) == all
      invariant pieces == Row(dx, y, h, sh, done)
      decreases dw - x
    {
      var drawW := Min(tileW, dw - x);
      SpansStep(done, x, dw, tileW, all);
      RowSnoc(dx, y, h, sh, done, Span(x, drawW));
      pieces := pieces + [Piece(drawW as real / 3.0, sh, dx + x, y, drawW, h)];
      done := done + [Span(x, drawW)];
      x := x + tileW;
    }
    assert done == all;
  }

  /** `tileThriceHorz`: fill `dw` pixels from `dx` with copies of `center` at three times
      its width and the bar's height, the last one cut short. */
  method TileThriceHorz(center: Image, dx: int, dy: int, dw: int, dh: int) returns (pieces: seq<Piece>)
    requires center.width > 0
    ensures pieces == HorzTiles(center, dx, dy, dw, dh)
  {
    pieces := TileRow(dx, dy, dw, dh, center.height as real, center.width * SCALE);
  }

  /** The rows of a tiling from the back: row `ys[k]` holds one piece per stretch of
      `xs`, `ys[k].len` high and reading a third of that many source rows. */
  function Grid(dx: int, dy: int, ys: seq<Span>, xs: seq<Span>): seq<Piece>
  {
    if ys == [] then []
    else
      var y := ys[|ys| - 1];
      Grid(dx, dy, ys[..|ys| - 1], xs) + Row(dx, dy + y.at, y.len, y.len as real / 3.0, xs)
  }

  /** One more row at the bottom of a tiling adds its pieces at the end. */
  lemma GridSnoc(dx: int, dy: int, ys: seq<Span>, s: Span, xs: seq<Span>)
    ensures Grid(dx, dy, ys + [s], xs) == Grid(dx, dy, ys, xs) + Row(dx, dy + s.at, s.len, s.len as real / 3.0, xs)
  {
    assert (ys + [s])[..|ys|] == ys;
  }

  /** A tiling has one piece per row and column. */
  lemma {:induction false} GridLength(dx: int, dy: int, ys: seq<Span>, xs: seq<Span>)
    ensures |Grid(dx, dy, ys, xs)| == |ys| * |xs|
    decreases |ys|
  {
    if ys != [] {
      GridLength(dx, dy, ys[..|ys| - 1], xs);
      assert |ys| * |xs| == (|ys| - 1) * |xs| + |xs|;
    }
  }

  /** What `tileThreeTimes` draws. */
  function GridTiles(source: Image, dx: int, dy: int, dw: int, dh: int): seq<Piece>
    requires source.width > 0 && source.height > 0
  {
    Grid(dx, dy, SpansFrom(0, dh, source.height * SCALE), SpansFrom(0, dw, source.width * SCALE))
  }

  /** `tileThreeTimes`: rows of tiles top to bottom, each row left to right; nothing when
      either size is not positive. */
  method TileThreeTimes(source: Image, dx: int, dy: int, dw: int, dh: int) returns (pieces: seq<Piece>)
    requires source.width > 0 && source.height > 0
    ensures pieces == GridTiles(source, dx, dy, dw, dh)
    ensures dw <= 0 || dh <= 0 ==> pieces == []
  {
    if dw <= 0 || dh <= 0 {
      GridLength(dx, dy, SpansFrom(0, dh, source.height * SCALE), SpansFrom(0, dw, source.width * SCALE));
      return [];
    }
    var tileW := source.width * SCALE;
    var tileH := source.height * SCALE;
    ghost var xs := SpansFrom(0, dw, tileW);
    ghost var allRows := SpansFrom(0, dh, tileH);
    ghost var rows: seq<Span> := [];
    pieces := [];
    var y := 0;
    while y < dh
      invariant rows + SpansFrom(y, dh, tileH) == allRows
      invariant pieces == Grid(dx, dy, rows, xs)
      decreases dh - y
    {
      var drawH := Min(tileH, dh - y);
      var row := TileRow(dx, dy + y, dw, drawH, drawH as real / 3.0, tileW);
      pieces := pieces + row;
      SpansStep(rows, y, dh, tileH, allRows);
      GridSnoc(dx, dy, rows, Span(y, drawH), xs);
      rows := rows + [Span(y, drawH)];
      y := y + tileH;
    }
    assert rows == allRows;
  }

  /** `a * n <= b * n` when `a <= b`. */
  lemma MulLe(a: int, b: int, n: int)
    requires a <= b && 0 <= n
    ensures a * n <= b * n
  {
    assert b * n - a * n == (b - a) * n;
  }

  /** The piece in row `r` and column `c` of a tiling covers exactly the `r`-th vertical
      and the `c`-th horizontal stretch: the blits are the product of the two axes. */
  lemma {:induction false} GridCell(dx: int, dy: int, ys: seq<Span>, xs: seq<Span>, r: int, c: int)
    requires 0 <= r < |ys| && 0 <= c < |xs|
    ensures 0 <= r * |xs| + c < |Grid(dx, dy, ys, xs)|
    ensures Grid(dx, dy, ys, xs)[r * |xs| + c]
         == Piece(xs[c].len as real / 3.0, ys[r].len as real / 3.0, dx + xs[c].at, dy + ys[r].at, xs[c].len, ys[r].len)
    decreases |ys|
  {
    var n := |xs|;
    var front := ys[..|ys| - 1];
    var k := r * n + c;
    GridLength(dx, dy, ys, xs);
    GridLength(dx, dy, front, xs);
    MulLe(0, r, n);
    MulLe(r + 1, |ys|, n);
    assert (r + 1) * n == r * n + n;
    assert |front| * n == |ys| * n - n;
    if r < |ys| - 1 {
      MulLe(r + 1, |front|, n);
      GridCell(dx, dy, front, xs, r, c);
      assert front[r] == ys[r];
    } else {
      assert k - |front| * n == c;
    }
  }

  // ---------------------------------------------------------------------------
  // Three-slice bars: drawBarBackground (213-239) and GameEnd._drawSegment (594-617)
  // ---------------------------------------------------------------------------

  /** `Math.round`: halves go up. */
  function Round(v: real): (r: int)
    ensures v - 0.5 < r as real <= v + 0.5
  {
    (v + 0.5).Floor
  }

  /** One scaled cap: the whole source bitmap stretched over `w` x `h`. */
  function Cap(img: Image, x: int, y: int, w: int, h: int): Piece
  {
    Piece(img.width as real, img.height as real, x, y, w, h)
  }

  /** A three-slice bar as drawn: its left cap, its right cap and the centre tiles. */
  datatype Bar = Bar(left: Piece, right: Piece, fill: seq<Piece>)

  /** `Window_PaladinHorzBar.drawBarBackground`: caps at three times their size at both
      ends, the centre tiled between them when there is room. */
  function HorzBarBackground(left: Image, center: Image, right: Image, w: int): (b: Bar)
    requires center.width > 0
    ensures b.left.x == 0 && b.left.w == left.width * SCALE
    ensures b.right.x + b.right.w == w
    ensures b.fill != [] ==>
              b.fill[0].x == b.left.x + b.left.w && b.fill[|b.fill| - 1].x + b.fill[|b.fill| - 1].w == b.right.x
  {
    var lW := left.width * SCALE;
    var rW := right.width * SCALE;
    var fillW := w - lW - rW;
    SpansInside(0, fillW, center.width * SCALE);
    Bar(Cap(left, 0, 0, lW, left.height * SCALE),
        Cap(right, w - rW, 0, rW, right.height * SCALE),
        if fillW > 0 then HorzTiles(center, lW, 0, fillW, center.height * SCALE) else [])
  }

  /** A cap's width at the bar's height: `Math.round(img.width * (dh / left.height))`. */
  function ScaledWidth(img: Image, dh: int, h: nat): (r: int)
    requires h > 0
    ensures dh >= 0 ==> r >= 0
  {
    var scale := dh as real / h as real;
    assert dh >= 0 ==> scale >= 0.0 by {
      assert scale * h as real == dh as real;
    }
    assert dh >= 0 ==> img.width as real * scale >= 0.0;
    Round(img.width as real * scale)
  }

  /** The cap widths `_drawSegment` settles on: each cap scaled to the bar's height,
      the left one held to half the width and the right one to what the left leaves. */
  function CapWidths(left: Image, right: Image, dw: int, dh: int): (r: (int, int))
    requires left.height > 0
    ensures r.0 <= ScaledWidth(left, dh, left.height) && r.1 <= ScaledWidth(right, dh, left.height)
    ensures dw >= 0 && dh >= 0 ==> 0 <= r.0 <= dw / 2 && 0 <= r.1 && r.0 + r.1 <= dw
  {
    var safeLW := Min(ScaledWidth(left, dh, left.height), dw / 2);
    (safeLW, Min(ScaledWidth(right, dh, left.height), dw - safeLW))
  }

  /** `_drawSegment`: a bar `dw` x `dh` at (`dx`, `dy`), caps scaled to the height. */
  function Segment(left: Image, center: Image, right: Image, dx: int, dy: int, dw: int, dh: int): (b: Bar)
    requires left.height > 0 && center.width > 0
    ensures b.left.x == dx && b.right.x + b.right.w == dx + dw
    ensures dw >= 0 && dh >= 0 && b.fill == [] ==> b.left.x + b.left.w == b.right.x
    ensures b.fill != [] ==>
              b.fill[0].x == b.left.x + b.left.w && b.fill[|b.fill| - 1].x + b.fill[|b.fill| - 1].w == b.right.x
  {
    var (safeLW, safeRW) := CapWidths(left, right, dw, dh);
    var fillW := dw - safeLW - safeRW;
    SpansInside(0, fillW, center.width * SCALE);
    Bar(Cap(left, dx, dy, safeLW, dh),
        Cap(right, dx + dw - safeRW, dy, safeRW, dh),
        if fillW > 0 then HorzTiles(center, dx + safeLW, dy, fillW, dh) else [])
  }

  /** The centre tiles are exactly as wide as the room the caps leave. */
  lemma SegmentJoins(left: Image, center: Image, right: Image, dw: int, dh: int)
    requires left.height > 0 && center.width > 0 && dw >= 0 && dh >= 0
    ensures var (l, r) := CapWidths(left, right, dw, dh);
      TotalLen(SpansFrom(0, dw - l - r, center.width * SCALE)) == dw - l - r
  {
    var (l, r) := CapWidths(left, right, dw, dh);
    SpansTotal(0, dw - l - r, center.width * SCALE);
  }

  // ---------------------------------------------------------------------------
  // Window_PaladinGameEnd: drawBarBackground (583-592) and itemRect (620-625)
  // ---------------------------------------------------------------------------

  const GAP: int := 48
  const ITEM_HEIGHT: int := 102

  /** `Math.floor((width - gap) / 2)`. */
  function SegmentWidth(w: int): int
  {
    (w - GAP) / 2
  }

  /** The two bars: "No" at x = 0, "Yes" one gap to the right of it. */
  function GameEndBackground(left: Image, center: Image, right: Image, w: int, h: int): (r: (Bar, Bar))
    requires left.height > 0 && center.width > 0
    ensures r.0.left.x == 0 && r.1.left.x == SegmentWidth(w) + GAP
  {
    var segW := SegmentWidth(w);
    (Segment(left, center, right, 0, 0, segW, h), Segment(left, center, right, segW + GAP, 0, segW, h))
  }

  /** A command's rectangle. */
  datatype ItemRect = ItemRect(x: int, y: int, width: int, height: int)

  /** `itemRect`: item 0 on the left bar, every other index on the right one. Its width
      `floor(w/2 - 24)` agrees with the bars' `floor((w - 48)/2)` for every integer width. */
  function GameEndItemRect(index: int, width: int): (r: ItemRect)
    ensures r.width == SegmentWidth(width) && r.y == 0 && r.height == ITEM_HEIGHT
    ensures r.x == if index == 0 then 0 else SegmentWidth(width) + GAP
  {
    var segW := ((width as real) / 2.0 - (GAP as real) / 2.0).Floor;
    var q := SegmentWidth(width);
    var m := (width - GAP) % 2;
    assert width == 2 * q + m + GAP;
    assert (width as real) / 2.0 - 24.0 == q as real + m as real / 2.0;
    ItemRect(if index == 0 then 0 else segW + GAP, 0, segW, ITEM_HEIGHT)
  }

  /** Each command lies exactly on its bar: same left edge, same width. */
  lemma ItemsOnSegments(left: Image, center: Image, right: Image, w: int, h: int, index: int)
    requires left.height > 0 && center.width > 0 && 0 <= index <= 1
    ensures var item := GameEndItemRect(index, w);
      var bars := GameEndBackground(left, center, right, w, h);
      var bar := if index == 0 then bars.0 else bars.1;
      item.x == bar.left.x && item.width == SegmentWidth(w)
  {
  }

  // ---------------------------------------------------------------------------
  // Window_PaladinBase.select (90-99)
  // ---------------------------------------------------------------------------

  /** The items `select` redraws: the one left, if there was one and it is not the new
      one, then the new one, if any. */
  function SelectRedraws(last: int, next: int): (r: seq<int>)
    ensures last != next ==> (last in r <==> last >= 0)
    ensures next in r <==> next >= 0
    ensures forall i :: 0 <= i < |r| ==> r[i] == last || r[i] == next
    ensures forall i, j :: 0 <= i < j < |r| ==> r[i] != r[j]
    ensures next >= 0 ==> r[|r| - 1] == next
  {
    (if last >= 0 && last != next then [last] else []) + (if next >= 0 then [next] else [])
  }

  /** A command window's cursor. */
  class CommandCursor {
    var index: int

    /** `Window_Command.initialize`: the index starts at -1 and the window then selects
        item 0 through the overriding `select`, which redraws item 0 alone. */
    constructor ()
      ensures index == 0
    {
      index := -1;
      new;
      var redrawn := Select(0);
      assert redrawn == [0];
    }

    /** `select`: move the cursor and redraw what changed colour. */
    method Select(next: int) returns (redrawn: seq<int>)
      modifies this
      ensures index == next
      ensures redrawn == SelectRedraws(old(index), next)
    {
      var last := index;
      index := next;
      redrawn := [];
      if last >= 0 && last != index {
        redrawn := redrawn + [last];
      }
      if index >= 0 {
        redrawn := redrawn + [index];
      }
    }
  }

  // ---------------------------------------------------------------------------
  // Digit numbers: Window_PaladinSaveSlot.drawContents (741-761) and
  // Window_PaladinGold.drawContents (523-546)
  // ---------------------------------------------------------------------------

  /** A digit string to draw: every digit picks one of the ten digit bitmaps. */
  predicate IsDigits(ds: seq<nat>)
  {
    forall i :: 0 <= i < |ds| ==> ds[i] < 10
  }

  /** How far the first `k` digits move the pen: each twice its bitmap's width plus one
      pixel. */
  function Advance(widths: seq<nat>, ds: seq<nat>, k: nat): nat
    requires |widths| == 10 && IsDigits(ds) && k <= |ds|
  {
    if k == 0 then 0 else Advance(widths, ds, k - 1) + widths[ds[k - 1]] * 2 + 1
  }

  /** Lay the digits out right-aligned against a 30-pixel margin: the first pass sums
      the advances, the second starts that far left of the margin and steps forward.
      Each digit starts where the ones before it have pushed the pen, so the first one
      starts the whole width left of the margin and the pen stops exactly at it. */
  method LayOutDigits(w: int, widths: seq<nat>, ds: seq<nat>) returns (xs: seq<int>, endX: int)
    requires |widths| == 10 && IsDigits(ds)
    ensures |xs| == |ds|
    ensures forall k {:trigger xs[k]} :: 0 <= k < |ds| ==> xs[k] == w - 30 - Advance(widths, ds, |ds|) + Advance(widths, ds, k)
    ensures |ds| > 0 ==> xs[0] == w - 30 - Advance(widths, ds, |ds|)
    ensures endX == w - 30
  {
    var totalW := 0;
    for i := 0 to |ds|
      invariant totalW == Advance(widths, ds, i)
    {
      assert Advance(widths, ds, i + 1) == Advance(widths, ds, i) + widths[ds[i]] * 2 + 1;
      totalW := totalW + widths[ds[i]] * 2 + 1;
    }
    var curX := w - totalW - 30;
    ghost var start := curX;
    xs := [];
    for i := 0 to |ds|
      invariant |xs| == i
      invariant curX == start + Advance(widths, ds, i)
      invariant forall k {:trigger xs[k]} :: 0 <= k < i ==> xs[k] == start + Advance(widths, ds, k)
    {
      assert Advance(widths, ds, i + 1) == Advance(widths, ds, i) + widths[ds[i]] * 2 + 1;
      xs := xs + [curX];
      curX := curX + widths[ds[i]] * 2 + 1;
    }
    endX := curX;
  }

  /** The save-slot number: the save index's decimal digits. */
  method SaveSlotDigits(w: int, widths: seq<nat>, saveIndex: nat) returns (xs: seq<int>, endX: int)
    requires |widths| == 10
    ensures |xs| == |Digits(saveIndex)| && endX == w - 30
    ensures xs[0] == w - 30 - Advance(widths, Digits(saveIndex), |Digits(saveIndex)|)
    ensures forall k {:trigger xs[k]} :: 0 <= k < |xs| ==>
              xs[k] == w - 30 - Advance(widths, Digits(saveIndex), |xs|) + Advance(widths, Digits(saveIndex), k)
  {
    xs, endX := LayOutDigits(w, widths, Digits(saveIndex));
  }

  /** The party's gold: the digits of its absolute value. */
  method GoldDigits(w: int, widths: seq<nat>, gold: int) returns (xs: seq<int>, endX: int)
    requires |widths| == 10
    ensures |xs| == |Digits(Abs(gold))| && endX == w - 30
    ensures xs[0] == w - 30 - Advance(widths, Digits(Abs(gold)), |Digits(Abs(gold))|)
    ensures forall k {:trigger xs[k]} :: 0 <= k < |xs| ==>
              xs[k] == w - 30 - Advance(widths, Digits(Abs(gold)), |xs|) + Advance(widths, Digits(Abs(gold)), k)
  {
    xs, endX := LayOutDigits(w, widths, Digits(Abs(gold)));
  }

  // ---------------------------------------------------------------------------
  // Window_PaladinMenuBase.drawMenuBackground (334-372)
  // ---------------------------------------------------------------------------

  /** A destination rectangle handed to `tileThreeTimes`. */
  datatype Area = Area(x: int, y: int, w: int, h: int)

  /** Slice sizes after scaling: corner and edge widths and heights. */
  const TL_W: int := 22 * 3
  const TL_H: int := 20 * 3
  const TR_W: int := 33 * 3
  const TR_H: int := 20 * 3
  const BL_W: int := 22 * 3
  const BL_H: int := 20 * 3
  const BR_W: int := 31 * 3
  const BR_H: int := 20 * 3
  const R_W: int := 23 * 3
  const L_W: int := 22 * 3

  function Max3(a: int, b: int, c: int): (m: int)
    ensures m >= a && m >= b && m >= c && (m == a || m == b || m == c)
  {
    if a >= b && a >= c then a else if b >= c then b else c
  }

  /** The margins: the widest left slice and the widest right slice. */
  function Margins(): (r: (int, int))
    ensures r == (66, 99)
  {
    (Max3(TL_W, L_W, BL_W), Max3(TR_W, R_W, BR_W))
  }

  /** The nine areas in drawing order: the four corners, the top, bottom, left and right
      edges, then the centre. */
  function MenuBackground(w: int, h: int): (r: seq<Area>)
    ensures |r| == 9
  {
    var (ml, mr) := Margins();
    [ Area(0, 0, TL_W, TL_H), Area(w - mr, 0, TR_W, TR_H),
      Area(0, h - BL_H, BL_W, BL_H), Area(w - mr, h - BR_H, BR_W, BR_H),
      Area(ml, 0, w - ml - mr, TL_H), Area(ml, h - BL_H, w - ml - mr, BL_H),
      Area(0, TL_H, ml, h - TL_H - BL_H), Area(w - mr, TR_H, R_W, h - TR_H - BR_H),
      Area(ml, TL_H, w - ml - mr, h - TL_H - BL_H) ]
  }

  /** Across the top, the left corner, the top edge and the right corner meet end to end
      and span the full width; the centre meets the left edge and the top edge, and the
      bottom edge starts where the centre ends. The right-hand column is only as wide as
      its slices: the right edge fills 69 of the 99-pixel margin and the bottom-right
      corner 93. */
  lemma MenuFrameJoins(w: int, h: int)
    ensures var a := MenuBackground(w, h);
      && a[0].x + a[0].w == a[4].x && a[4].x + a[4].w == a[1].x && a[1].x + a[1].w == w
      && a[8].x == a[6].x + a[6].w && a[8].y == a[4].y + a[4].h
      && a[8].y + a[8].h == a[5].y && a[5].y + a[5].h == h
      && a[7].w == 69 && a[3].x + a[3].w == w - 6
  {
  }
}
