/** The full-screen status pages (js/plugins/palStatus.js).

    `Scene_PalStatus` shows one party member at a time and pages forwards and backwards
    through the party, leaving the scene past either end. `Window_PalStatus` draws each
    page: numbers as rows of digit bitmaps, fractions with a slash bitmap, the face cut
    out of a four-column face sheet, and one equipment item per body slot. */
module StatusScreen {
  import opened Opt
  import opened Decimal
  import opened Arith

  // ---------------------------------------------------------------------------
  // Paging (processNext 115-124, processPrevious 126-135, update 103-113)
  // ---------------------------------------------------------------------------

  /** The page after `i` in a party of `n`, or `None` when `i` is the last page and the
      scene closes instead. */
  function NextPage(i: int, n: nat): (r: Option<int>)
    ensures r.Some? <==> i < n - 1
    ensures r.Some? ==> r.value == i + 1
  {
    if i < n - 1 then Some(i + 1) else None
  }

  /** The page before `i`, or `None` on the first page. */
  function PreviousPage(i: int): (r: Option<int>)
    ensures r.Some? <==> i > 0
    ensures r.Some? ==> r.value == i - 1
  {
    if i > 0 then Some(i - 1) else None
  }

  /** Paging forwards and then backwards returns to the same page, and the other way
      round; a move that stays inside the party keeps the page inside it. */
  lemma PagingRoundTrip(i: int, n: nat)
    requires 0 <= i < n
    ensures NextPage(i, n).Some? ==> PreviousPage(NextPage(i, n).value) == Some(i)
    ensures PreviousPage(i).Some? ==> NextPage(PreviousPage(i).value, n) == Some(i)
    ensures NextPage(i, n).Some? ==> 0 <= NextPage(i, n).value < n
    ensures PreviousPage(i).Some? ==> 0 <= PreviousPage(i).value < n
  {
  }

  /** Paging forwards from the first page shows every member once, in order, and then
      leaves: `k` steps from page 0 reach page `k` while `k < n`. */
  function PagesFrom(i: int, n: nat, k: nat): (r: Option<int>)
    ensures 0 <= i && i + k < n ==> r == Some(i + k)
    decreases k
  {
    if k == 0 then Some(i)
    else match NextPage(i, n)
      case None => None
      case Some(j) => PagesFrom(j, n, k - 1)
  }

  /** The `n`-th forward step from page 0 closes the scene. */
  lemma {:induction false} LastStepLeaves(i: int, n: nat)
    requires 0 <= i < n
    ensures PagesFrom(i, n, n - i) == None
    decreases n - i
  {
    if i < n - 1 {
      LastStepLeaves(i + 1, n);
    }
  }

  /** The triggers one frame of `update` sees. */
  datatype StatusInput = StatusInput(down: bool, right: bool, ok: bool, touch: bool,
                                     up: bool, left: bool, cancel: bool, escape: bool, menu: bool)

  class StatusScene {
    /** `$gameParty.members().length`. */
    const partySize: nat
    var actorIndex: int
    /** `popScene` was called. */
    var popped: bool

    /** The page shown is a party member's, or page 0 of an empty party. */
    ghost predicate Valid()
      reads this
    {
      0 <= actorIndex && (partySize > 0 ==> actorIndex < partySize)
    }

    /** `initialize`: the first member. */
    constructor (partySize: nat)
      ensures Valid() && this.partySize == partySize && actorIndex == 0 && !popped
    {
      this.partySize := partySize;
      actorIndex := 0;
      popped := false;
    }

    /** `processNext`: the next member, or leave after the last. */
    method ProcessNext()
      requires Valid()
      modifies this
      ensures Valid()
      ensures NextPage(old(actorIndex), partySize).Some? ==>
                actorIndex == NextPage(old(actorIndex), partySize).value && popped == old(popped)
      ensures NextPage(old(actorIndex), partySize).None? ==> actorIndex == old(actorIndex) && popped
    {
      if actorIndex < partySize - 1 {
        actorIndex := actorIndex + 1;
      } else {
        popped := true;
      }
    }

    /** `processPrevious`: the member before, or leave from the first. */
    method ProcessPrevious()
      requires Valid()
      modifies this
      ensures Valid()
      ensures PreviousPage(old(actorIndex)).Some? ==>
                actorIndex == PreviousPage(old(actorIndex)).value && popped == old(popped)
      ensures PreviousPage(old(actorIndex)).None? ==> actorIndex == old(actorIndex) && popped
    {
      if actorIndex > 0 {
        actorIndex := actorIndex - 1;
      } else {
        popped := true;
      }
    }

    /** `update`: forward keys and touch page on, backward keys page back, and the
        cancel keys leave; the first group that fires wins. */
    method Update(input: StatusInput)
      requires Valid()
      modifies this
      ensures Valid()
      ensures (input.down || input.right || input.ok || input.touch) ==>
                (NextPage(old(actorIndex), partySize).Some? ==>
                   actorIndex == NextPage(old(actorIndex), partySize).value && popped == old(popped))
                && (NextPage(old(actorIndex), partySize).None? ==> actorIndex == old(actorIndex) && popped)
      ensures !(input.down || input.right || input.ok || input.touch) && (input.up || input.left) ==>
                (PreviousPage(old(actorIndex)).Some? ==>
                   actorIndex == PreviousPage(old(actorIndex)).value && popped == old(popped))
                && (PreviousPage(old(actorIndex)).None? ==> actorIndex == old(actorIndex) && popped)
      ensures !(input.down || input.right || input.ok || input.touch || input.up || input.left) ==>
                actorIndex == old(actorIndex)
                && popped == (old(popped) || input.cancel || input.escape || input.menu)
    {
      if input.down || input.right || input.ok || input.touch {
        ProcessNext();
      } else if input.up || input.left {
        ProcessPrevious();
      } else if input.cancel || input.escape || input.menu {
        popped := true;
      }
    }
  }

  // ---------------------------------------------------------------------------
  // Numbers (drawPalNumber 329-353, drawFraction 307-327)
  // ---------------------------------------------------------------------------

  /** One colour's ten digit bitmaps: their widths, and whether each has loaded. */
  datatype DigitFont = DigitFont(widths: seq<nat>, ready: seq<bool>)

  predicate WellFormed(f: DigitFont)
  {
    |f.widths| == 10 && |f.ready| == 10
  }

  /** The colours `drawPalNumber` knows; any other name draws nothing. */
  datatype NumberColor = White | Blue | Green | Unknown

  /** The bitmaps for a colour name; `None` for an unknown one. */
  function FontFor(color: NumberColor, white: DigitFont, blue: DigitFont, green: DigitFont): (r: Option<DigitFont>)
    ensures r.None? <==> color == Unknown
  {
    match color
    case White => Some(white)
    case Blue => Some(blue)
    case Green => Some(green)
    case Unknown => None
  }

  /** How far the first `k` digits move the pen: three times the width of each digit
      whose bitmap is ready, nothing for the others. */
  function DrawnWidth(font: Option<DigitFont>, ds: seq<nat>, k: nat): (w: nat)
    requires font.Some? ==> WellFormed(font.value)
    requires IsDigitString(ds) && k <= |ds|
    ensures font.None? ==> w == 0
    ensures w % 3 == 0
  {
    if k == 0 then 0
    else
      var d := ds[k - 1];
      DrawnWidth(font, ds, k - 1) + if font.Some? && font.value.ready[d] then font.value.widths[d] * 3 else 0
  }

  /** Where the first `k` digits land: the ready ones, each where the pen stood. */
  function Placements(font: Option<DigitFont>, x: int, ds: seq<nat>, k: nat): (r: seq<int>)
    requires font.Some? ==> WellFormed(font.value)
    requires IsDigitString(ds) && k <= |ds|
    ensures |r| <= k
    ensures font.None? ==> r == []
  {
    if k == 0 then []
    else
      var d := ds[k - 1];
      Placements(font, x, ds, k - 1)
        + if font.Some? && font.value.ready[d] then [x + DrawnWidth(font, ds, k - 1)] else []
  }

  predicate IsDigitString(ds: seq<nat>)
  {
    forall i :: 0 <= i < |ds| ==> ds[i] < 10
  }

  /** `drawPalNumber`: blit each digit of `value` at three times its size from `x`
      rightwards, skipping digits whose bitmap has not loaded; answer the width drawn. */
  method DrawPalNumber(value: nat, x: int, font: Option<DigitFont>) returns (drawn: seq<int>, width: int)
    requires font.Some? ==> WellFormed(font.value)
    ensures width == DrawnWidth(font, Digits(value), |Digits(value)|)
    ensures drawn == Placements(font, x, Digits(value), |Digits(value)|)
  {
    var ds := Digits(value);
    var currentX := x;
    drawn := [];
    for i := 0 to |ds|
      invariant currentX == x + DrawnWidth(font, ds, i)
      invariant drawn == Placements(font, x, ds, i)
    {
      var n := ds[i];
      if font.Some? {
        if font.value.ready[n] {
          drawn := drawn + [currentX];
          currentX := currentX + font.value.widths[n] * 3;
        }
      }
    }
    width := currentX - x;
  }

  /** A number is never wider than when all its digits are ready, and then every digit
      is placed. */
  lemma {:induction false} DrawnWidthBounds(font: DigitFont, ds: seq<nat>, k: nat)
    requires WellFormed(font) && IsDigitString(ds) && k <= |ds|
    ensures DrawnWidth(Some(font), ds, k) <= DrawnWidth(Some(font.(ready := seq(10, _ => true))), ds, k)
    ensures |Placements(Some(font.(ready := seq(10, _ => true))), 0, ds, k)| == k
  {
    if k > 0 {
      DrawnWidthBounds(font, ds, k - 1);
      assert font.(ready := seq(10, _ => true)).ready[ds[k - 1]];
    }
  }

  /** Every digit drawn starts between `x` and where the pen ends up. */
  lemma {:induction false} PlacementsAdvance(font: Option<DigitFont>, x: int, ds: seq<nat>, k: nat)
    requires font.Some? ==> WellFormed(font.value)
    requires IsDigitString(ds) && k <= |ds|
    ensures forall i :: 0 <= i < |Placements(font, x, ds, k)| ==>
              x <= Placements(font, x, ds, k)[i] <= x + DrawnWidth(font, ds, k)
  {
    if k > 0 {
      PlacementsAdvance(font, x, ds, k - 1);
      var front := Placements(font, x, ds, k - 1);
      var p := Placements(font, x, ds, k);
      assert DrawnWidth(font, ds, k - 1) <= DrawnWidth(font, ds, k);
      assert forall i :: 0 <= i < |front| ==> p[i] == front[i];
    }
  }

  /** Where `drawFraction` puts the slash and the maximum; `None` when the slash bitmap
      has not loaded and neither is drawn. */
  datatype Fraction = Fraction(currentWidth: int, slashX: Option<int>, maxX: Option<int>)

  /** `drawFraction`: the current value in white, the slash four pixels after it, the
      maximum in blue four pixels after the slash (drawn at twice its width). */
  method DrawFraction(current: nat, max: nat, x: int, white: DigitFont, blue: DigitFont, slash: Option<nat>)
    returns (f: Fraction)
    requires WellFormed(white) && WellFormed(blue)
    ensures f.currentWidth == DrawnWidth(Some(white), Digits(current), |Digits(current)|)
    ensures f.slashX.Some? <==> slash.Some?
    ensures f.maxX.Some? <==> slash.Some?
    ensures slash.Some? ==> f.slashX.value == x + f.currentWidth + 4
                            && f.maxX.value == f.slashX.value + slash.value * 2 + 4
  {
    var _, w1 := DrawPalNumber(current, x, Some(white));
    if slash.Some? {
      var sx := x + w1 + 2 * 2;
      var mx := sx + slash.value * 2 + 2 * 2;
      var _, _ := DrawPalNumber(max, mx, Some(blue));
      f := Fraction(w1, Some(sx), Some(mx));
    } else {
      f := Fraction(w1, None, None);
    }
  }

  // ---------------------------------------------------------------------------
  // Face (drawActorFaceGraphic 189-215)
  // ---------------------------------------------------------------------------

  /** The top-left corner of face `faceIndex` on a sheet four faces wide: the cell
      lies inside the sheet's four columns. */
  function FaceSource(faceIndex: nat, pw: nat, ph: nat): (r: (nat, nat))
    ensures r.0 + pw <= 4 * pw
  {
    var c := faceIndex % 4;
    assert (3 - c) * pw >= 0;
    (c * pw, (faceIndex / 4) * ph)
  }

  /** Distinct faces are cut from distinct cells. */
  lemma FaceSourceInjective(a: nat, b: nat, pw: nat, ph: nat)
    requires pw > 0 && ph > 0 && FaceSource(a, pw, ph) == FaceSource(b, pw, ph)
    ensures a == b
  {
    MulCancel(a % 4, b % 4, pw);
    MulCancel(a / 4, b / 4, ph);
  }

  // ---------------------------------------------------------------------------
  // Equipment (drawEquips 356-403, drawEquipItem 405-414)
  // ---------------------------------------------------------------------------

  /** An equipped item as the page uses it. */
  datatype Equip = Equip(etypeId: int, iconIndex: int, name: string)

  /** `equips.find(e => e && e.etypeId === etype)`: the first filled slot of that type. */
  function FindEquip(equips: seq<Option<Equip>>, etype: int): (r: Option<Equip>)
    ensures r.Some? ==> exists i :: 0 <= i < |equips| && equips[i] == r
    ensures r.Some? ==> r.value.etypeId == etype
    ensures r.None? <==> forall i :: 0 <= i < |equips| ==> equips[i].None? || equips[i].value.etypeId != etype
  {
    if equips == [] then None
    else if equips[0].Some? && equips[0].value.etypeId == etype then equips[0]
    else
      var r := FindEquip(equips[1..], etype);
      assert forall i :: 1 <= i < |equips| ==> equips[i] == equips[1..][i - 1];
      r
  }

  /** The first matching slot's index, when there is one. */
  function FindEquipIndex(equips: seq<Option<Equip>>, etype: int): (r: Option<nat>)
    ensures r.Some? ==> r.value < |equips| && equips[r.value].Some? && equips[r.value].value.etypeId == etype
    ensures r.Some? ==> forall j :: 0 <= j < r.value ==> equips[j].None? || equips[j].value.etypeId != etype
    ensures r.None? ==> forall j :: 0 <= j < |equips| ==> equips[j].None? || equips[j].value.etypeId != etype
  {
    if equips == [] then None
    else if equips[0].Some? && equips[0].value.etypeId == etype then Some(0)
    else match FindEquipIndex(equips[1..], etype)
      case None => None
      case Some(i) => Some(i + 1)
  }

  /** `find` answers the item in the first matching slot. */
  lemma {:induction false} FindIsFirst(equips: seq<Option<Equip>>, etype: int)
    ensures FindEquipIndex(equips, etype).None? ==> FindEquip(equips, etype) == None
    ensures FindEquipIndex(equips, etype).Some? ==>
              FindEquip(equips, etype) == equips[FindEquipIndex(equips, etype).value]
  {
    if equips != [] && !(equips[0].Some? && equips[0].value.etypeId == etype) {
      FindIsFirst(equips[1..], etype);
    }
  }

  /** One row of the slot table: the type it shows and where. */
  datatype SlotPlace = SlotPlace(slotName: string, etypeId: int, x: real, y: int)

  /** The slot table for a page `w` wide: head, cape, body, weapon, foot, accessory. */
  function Mapping(w: int): (m: seq<SlotPlace>)
    ensures |m| == 6
    ensures [m[0].etypeId, m[1].etypeId, m[2].etypeId, m[3].etypeId, m[4].etypeId, m[5].etypeId] == [2, 4, 3, 1, 5, 6]
  {
    var wr := w as real;
    [ SlotPlace("Head", 2, wr - 150.0, 50), SlotPlace("Cape", 4, wr - 100.0, 180),
      SlotPlace("Body", 3, wr - 150.0, 300), SlotPlace("Weapon", 1, wr - 250.0, 450),
      SlotPlace("Foot", 5, wr / 2.0 + 50.0, 520), SlotPlace("Accessory", 6, wr / 2.0 - 100.0, 520) ]
  }

  /** What `drawEquipItem` draws for a found item: its icon 36 pixels below the slot's
      place and its name 20 pixels to the left of it. */
  datatype EquipDraw = EquipDraw(item: Equip, iconX: real, iconY: int, nameX: real, nameY: int)

  /** `drawEquips`: for each slot in table order, the item found for its type, or
      nothing for an empty slot. */
  function DrawEquips(equips: seq<Option<Equip>>, w: int): (r: seq<Option<EquipDraw>>)
    ensures |r| == 6
    ensures forall i :: 0 <= i < 6 ==>
              (r[i].None? <==> FindEquip(equips, Mapping(w)[i].etypeId).None?)
              && (r[i].Some? ==> r[i].value.item == FindEquip(equips, Mapping(w)[i].etypeId).value
                                 && r[i].value.item.etypeId == Mapping(w)[i].etypeId
                                 && r[i].value.iconX == Mapping(w)[i].x
                                 && r[i].value.iconY == Mapping(w)[i].y + 36)
  {
    var m := Mapping(w);
    seq(6, i requires 0 <= i < 6 =>
      match FindEquip(equips, m[i].etypeId)
      case None => None
      case Some(e) => Some(EquipDraw(e, m[i].x, m[i].y + 36, m[i].x - 20.0, m[i].y)))
  }
}
