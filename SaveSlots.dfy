/** The five save-slot rows and their cursor (js/plugins/palScene.js).

    The in-game menu (`Scene_Menu`), the title screen overlay (`Scene_Title`) and the
    stand-alone load scene (`Scene_PaladinLoad`) each keep five slot windows, a selected
    slot and the per-slot save counters, and run the same input chain over them. The
    three copies differ only in how the rows are placed, what cancel does and whether OK
    saves; one class with a `kind` carries all three. */
module SaveSlots {
  import opened Opt

  /** `SLOT_COUNT`. */
  const N: nat := 5

  /** Row height and the gap between rows (`wh`, `gap`). */
  const ROW_HEIGHT: int := 102
  const ROW_GAP: int := 8

  // ---------------------------------------------------------------------------
  // Geometry (saveSlotRect 458-469, _slotRect 209-220, gameEndWindowRect 707-715)
  // ---------------------------------------------------------------------------

  /** A window rectangle; `gameEndWindowRect` can put it on a half pixel. */
  datatype Rect = Rect(x: real, y: real, width: real, height: real)

  /** The touch test: half-open on both axes. */
  predicate Contains(r: Rect, tx: int, ty: int)
  {
    r.x <= tx as real < r.x + r.width && r.y <= ty as real < r.y + r.height
  }

  /** `Math.floor((Graphics.boxHeight - (wh + gap) * SLOT_COUNT) / 2)`. */
  function StartY(boxHeight: int): int
  {
    (boxHeight - (ROW_HEIGHT + ROW_GAP) * N) / 2
  }

  /** `Scene_Menu.gameEndWindowRect`: 276 x 102, centred and then shifted by (118, 96). */
  function GameEndRect(boxWidth: int, boxHeight: int): Rect
  {
    Rect((boxWidth - 276) as real / 2.0 + 118.0, (boxHeight - 102) as real / 2.0 + 96.0, 276.0, 102.0)
  }

  /** Which of the three scenes owns the rows. */
  datatype SceneKind = MenuScene | TitleScene | LoadScene

  /** Row `i`: the menu and the title use `saveSlotRect` (x 600, width 250), the load
      scene its own `_slotRect` (the game-end window's x and width). */
  function SlotRect(kind: SceneKind, boxWidth: int, boxHeight: int, i: int): (r: Rect)
    ensures r.y == (StartY(boxHeight) + i * (ROW_HEIGHT + ROW_GAP)) as real
    ensures r.height == ROW_HEIGHT as real && r.width > 0.0
  {
    var y := (StartY(boxHeight) + i * (ROW_HEIGHT + ROW_GAP)) as real;
    if kind == LoadScene then
      var g := GameEndRect(boxWidth, boxHeight);
      Rect(g.x, y, g.width, ROW_HEIGHT as real)
    else
      Rect(600.0, y, 250.0, ROW_HEIGHT as real)
  }

  /** In the menu and on the title screen a touch hits row `i` exactly on the pixels
      x in [600, 850) and y in [top, top + 102): the right and bottom edges are outside. */
  lemma SlotHitPixels(kind: SceneKind, boxWidth: int, boxHeight: int, i: int, tx: int, ty: int)
    requires kind != LoadScene
    ensures Contains(SlotRect(kind, boxWidth, boxHeight, i), tx, ty) <==>
              600 <= tx < 850
              && StartY(boxHeight) + i * (ROW_HEIGHT + ROW_GAP) <= ty < StartY(boxHeight) + i * (ROW_HEIGHT + ROW_GAP) + ROW_HEIGHT
  {
  }

  /** Consecutive rows are stacked with an 8-pixel gap, and no point lies in two rows. */
  lemma {:induction false} RowsDisjoint(kind: SceneKind, boxWidth: int, boxHeight: int, i: int, j: int, tx: int, ty: int)
    requires i < j
    ensures SlotRect(kind, boxWidth, boxHeight, j).y
         >= SlotRect(kind, boxWidth, boxHeight, i).y + (ROW_HEIGHT + ROW_GAP) as real
    ensures !(Contains(SlotRect(kind, boxWidth, boxHeight, i), tx, ty)
              && Contains(SlotRect(kind, boxWidth, boxHeight, j), tx, ty))
  {
    var k := j - i;
    assert (StartY(boxHeight) + j * 110) - (StartY(boxHeight) + i * 110) == k * 110;
  }

  // ---------------------------------------------------------------------------
  // Cursor arithmetic (lines 89-101, 234-246, 518-530)
  // ---------------------------------------------------------------------------

  /** `(selected - 1 + N) % N`. */
  function CursorUp(s: int): (r: int)
    requires 0 <= s < N
    ensures 0 <= r < N
    ensures r == if s == 0 then N - 1 else s - 1
  {
    (s - 1 + N) % N
  }

  /** `(selected + 1) % N`. */
  function CursorDown(s: int): (r: int)
    requires 0 <= s < N
    ensures 0 <= r < N
    ensures r == if s == N - 1 then 0 else s + 1
  {
    (s + 1) % N
  }

  /** Up and down undo each other. */
  lemma CursorRoundTrip(s: int)
    requires 0 <= s < N
    ensures CursorDown(CursorUp(s)) == s && CursorUp(CursorDown(s)) == s
  {
  }

  // ---------------------------------------------------------------------------
  // Save indices (_loadSaveIndices 485-492, _doSave 569-573)
  // ---------------------------------------------------------------------------

  /** `palSaveIndex` as read from `DataManager._globalInfo[slot]`: `None` for a missing
      entry or a missing field. */
  type SaveInfo = Option<int>

  /** `(slotInfo && slotInfo.palSaveIndex) ? slotInfo.palSaveIndex : 0` for row `i`,
      which is save file `i + 1`. */
  function StoredIndex(info: seq<SaveInfo>, i: int): (r: int)
    requires 0 <= i
    ensures r != 0 <==> i + 1 < |info| && info[i + 1].Some? && info[i + 1].value != 0
    ensures r != 0 ==> r == info[i + 1].value
  {
    if i + 1 < |info| && info[i + 1].Some? && info[i + 1].value != 0 then info[i + 1].value else 0
  }

  /** The five rows' indices as `_loadSaveIndices` fills them in. */
  function StoredIndices(info: seq<SaveInfo>): (r: seq<int>)
    ensures |r| == N
    ensures forall i :: 0 <= i < N ==> (r[i] != 0 <==> i + 1 < |info| && info[i + 1].Some? && info[i + 1].value != 0)
    ensures forall i :: 0 <= i < N && r[i] != 0 ==> r[i] == info[i + 1].value
  {
    seq(N, i requires 0 <= i => StoredIndex(info, i))
  }

  /** `Math.max(0, ...indices)`. */
  function MaxIndex(s: seq<int>): (m: int)
    ensures m >= 0
    ensures forall i :: 0 <= i < |s| ==> s[i] <= m
    ensures m == 0 || m in s
  {
    if s == [] then 0
    else
      var rest := MaxIndex(s[..|s| - 1]);
      assert forall i :: 0 <= i < |s| - 1 ==> s[..|s| - 1][i] == s[i];
      if s[|s| - 1] > rest then s[|s| - 1] else rest
  }

  /** The index `_doSave` gives a new save. */
  function NextSaveIndex(s: seq<int>): (r: int)
    ensures r >= 1
    ensures forall i :: 0 <= i < |s| ==> s[i] < r
  {
    MaxIndex(s) + 1
  }

  /** After a save the saved row holds the strictly largest index. */
  lemma {:induction false} SavedRowIsNewest(s: seq<int>, slot: int)
    requires 0 <= slot < |s|
    ensures var t := s[slot := NextSaveIndex(s)];
      forall j :: 0 <= j < |t| && j != slot ==> t[j] < t[slot]
  {
    var t := s[slot := NextSaveIndex(s)];
    forall j | 0 <= j < |t| && j != slot
      ensures t[j] < t[slot]
    {
      assert t[j] == s[j];
    }
  }

  // ---------------------------------------------------------------------------
  // Windows, input and the scene
  // ---------------------------------------------------------------------------

  /** A `Window_PaladinSaveSlot` as the scene sees it: its rectangle, the save index it
      shows (`setSlotData`), `visible` and `active`. */
  datatype SlotWindow = SlotWindow(rect: Rect, shown: int, visible: bool, active: bool)

  /** `_saveMode`. */
  datatype SaveMode = SaveMode | LoadMode

  /** The triggers one `update` sees. `touch` is `TouchInput.isTriggered()` with its
      position. */
  datatype InputFrame = InputFrame(cancel: bool, escape: bool, touchCancelled: bool,
                                   up: bool, down: bool, ok: bool, touch: Option<(int, int)>)

  /** What one `update` does besides moving the cursor. */
  datatype Effect =
    | Nothing
    | Moved(from: nat, to: nat)
    | Closed                          // _closeSaveSlots / _closeTitleLoadSlots
    | PoppedScene                     // Scene_PaladinLoad: SceneManager.pop()
    | Saved(slot: nat, index: int)    // _doSave starts DataManager.saveGame(slot + 1)
    | LoadStarted(slot: nat)          // _doLoad / _doTitleLoad start DataManager.loadGame(slot + 1)

  class SlotScene {
    const kind: SceneKind
    const boxWidth: int
    const boxHeight: int
    var slots: seq<SlotWindow>
    var selected: int
    var saveIndices: seq<int>
    var mode: SaveMode
    /** The input chain runs: `_saveSlots[0].visible` in the menu, `_titleLoadActive` on
        the title screen, always in the load scene. */
    var listening: bool
    /** The window the rows were opened from (system window, or title command window). */
    var ownerActive: bool

    /** Five rows at their fixed places, all shown or all hidden, and while the scene
        listens exactly the selected row is active; otherwise none is. */
    ghost predicate Valid()
      reads this
    {
      && |slots| == N && |saveIndices| == N && 0 <= selected < N
      && (forall i :: 0 <= i < N ==> slots[i].rect == SlotRect(kind, boxWidth, boxHeight, i))
      && (forall i :: 0 <= i < N ==> slots[i].visible == slots[0].visible)
      && (kind == MenuScene ==> listening == slots[0].visible)
      && (kind == TitleScene ==> listening == slots[0].visible)
      && (kind == LoadScene ==> listening && slots[0].visible)
      && (forall i :: 0 <= i < N ==> (slots[i].active <==> listening && i == selected))
    }

    /** `createSaveSlotWindows` / `_createTitleLoadSlots` (hidden, inactive rows), or
        `Scene_PaladinLoad.create` followed by `start` (shown rows, indices read from
        `info`, row 0 active). */
    constructor (kind: SceneKind, boxWidth: int, boxHeight: int, info: seq<SaveInfo>, ownerActive: bool)
      ensures Valid()
      ensures this.kind == kind && this.boxWidth == boxWidth && this.boxHeight == boxHeight
      ensures selected == 0 && mode == SaveMode && this.ownerActive == ownerActive
      ensures kind != LoadScene ==> !listening && saveIndices == [0, 0, 0, 0, 0]
      ensures kind == LoadScene ==> listening && saveIndices == StoredIndices(info)
      ensures forall i :: 0 <= i < N ==> slots[i].shown == saveIndices[i]
    {
      this.kind := kind;
      this.boxWidth := boxWidth;
      this.boxHeight := boxHeight;
      var shown := kind == LoadScene;
      slots := seq(N, i => SlotWindow(SlotRect(kind, boxWidth, boxHeight, i), 0, shown, false));
      saveIndices := [0, 0, 0, 0, 0];
      selected := 0;
      mode := SaveMode;
      listening := false;
      this.ownerActive := ownerActive;
      new;
      if kind == LoadScene {
        LoadSaveIndices(info);
        for i := 0 to N
          modifies this`slots
          invariant |slots| == N && |saveIndices| == N && selected == 0 && !listening
          invariant forall k :: 0 <= k < N ==> slots[k].rect == SlotRect(kind, boxWidth, boxHeight, k)
          invariant forall k :: 0 <= k < N ==> slots[k].visible && !slots[k].active
          invariant saveIndices == StoredIndices(info)
          invariant forall k :: 0 <= k < i ==> slots[k].shown == saveIndices[k]
        {
          slots := slots[i := slots[i].(shown := saveIndices[i])];
        }
        slots := slots[0 := slots[0].(active := true)];
        listening := true;
      }
    }

    /** `_loadSaveIndices` (and the same loop in `commandContinuePaladin` and `start`). */
    method LoadSaveIndices(info: seq<SaveInfo>)
      requires |saveIndices| == N
      modifies this`saveIndices
      ensures saveIndices == StoredIndices(info)
    {
      for i := 0 to N
        invariant |saveIndices| == N
        invariant forall k :: 0 <= k < i ==> saveIndices[k] == StoredIndex(info, k)
      {
        saveIndices := saveIndices[i := StoredIndex(info, i)];
      }
    }

    /** `commandContinuePaladin`: the title's command window gives way to the rows. */
    method ContinuePaladin(info: seq<SaveInfo>)
      requires Valid() && kind == TitleScene
      modifies this
      ensures Valid() && listening && selected == 0 && !ownerActive && mode == old(mode)
      ensures saveIndices == StoredIndices(info)
      ensures forall i :: 0 <= i < N ==> slots[i].shown == saveIndices[i] && slots[i].visible
    {
      ownerActive := false;
      OpenSaveSlots(info);
    }

    /** `commandSave` / `commandLoad`: the system window gives way to the rows. */
    method Command(m: SaveMode, info: seq<SaveInfo>)
      requires Valid() && kind == MenuScene
      modifies this
      ensures Valid() && mode == m && listening && selected == 0 && !ownerActive
      ensures saveIndices == StoredIndices(info)
      ensures forall i :: 0 <= i < N ==> slots[i].shown == saveIndices[i] && slots[i].visible
    {
      ownerActive := false;
      mode := m;
      OpenSaveSlots(info);
    }

    /** `_openSaveSlots` / `commandContinuePaladin`: read the indices, show every row
        with its index, inactive, then select and activate row 0. */
    method OpenSaveSlots(info: seq<SaveInfo>)
      requires Valid() && kind != LoadScene
      modifies this
      ensures Valid() && listening && selected == 0
      ensures saveIndices == StoredIndices(info)
      ensures forall i :: 0 <= i < N ==> slots[i].shown == saveIndices[i] && slots[i].visible
      ensures mode == old(mode) && ownerActive == old(ownerActive)
    {
      LoadSaveIndices(info);
      for i := 0 to N
        modifies this`slots
        invariant |slots| == N && |saveIndices| == N
        invariant forall k :: 0 <= k < N ==> slots[k].rect == SlotRect(kind, boxWidth, boxHeight, k)
        invariant forall k :: 0 <= k < i ==> slots[k].shown == saveIndices[k] && slots[k].visible && !slots[k].active
        invariant forall k :: i <= k < N ==> slots[k].visible == old(slots[0].visible) && slots[k].active == old(slots[k].active)
        invariant saveIndices == StoredIndices(info)
        invariant mode == old(mode) && ownerActive == old(ownerActive)
      {
        slots := slots[i := slots[i].(shown := saveIndices[i], visible := true, active := false)];
      }
      selected := 0;
      slots := slots[0 := slots[0].(active := true)];
      listening := true;
    }

    /** `_closeSaveSlots` / `_closeTitleLoadSlots`: hide and deactivate every row and
        give the focus back to the window the rows came from. */
    method CloseSaveSlots()
      requires Valid() && kind != LoadScene
      modifies this
      ensures Valid() && !listening && ownerActive
      ensures forall i :: 0 <= i < N ==> !slots[i].visible && !slots[i].active
      ensures forall i :: 0 <= i < N ==> slots[i] == old(slots[i]).(visible := false, active := false)
      ensures selected == old(selected) && saveIndices == old(saveIndices) && mode == old(mode)
    {
      for i := 0 to N
        modifies this`slots
        invariant |slots| == N
        invariant forall k :: 0 <= k < i ==> slots[k] == old(slots[k]).(visible := false, active := false)
        invariant forall k :: i <= k < N ==> slots[k] == old(slots[k])
      {
        slots := slots[i := slots[i].(visible := false, active := false)];
      }
      listening := false;
      ownerActive := true;
    }

    /** Deactivate the selected row, select row `i` and activate it. */
    method MoveCursor(i: int)
      requires Valid() && listening && 0 <= i < N
      modifies this`slots, this`selected
      ensures Valid() && selected == i
      ensures forall k :: 0 <= k < N ==> (slots[k].active <==> k == i)
      ensures forall k :: 0 <= k < N ==> slots[k].(active := false) == old(slots[k]).(active := false)
    {
      slots := slots[selected := slots[selected].(active := false)];
      selected := i;
      slots := slots[i := slots[i].(active := true)];
    }

    /** The touch loop: the first row whose rectangle holds the point. */
    method HitSlot(tx: int, ty: int) returns (hit: Option<nat>)
      requires |slots| == N
      ensures hit.Some? ==> hit.value < N && Contains(slots[hit.value].rect, tx, ty)
      ensures hit.Some? ==> forall k :: 0 <= k < hit.value ==> !Contains(slots[k].rect, tx, ty)
      ensures hit.None? ==> forall k :: 0 <= k < N ==> !Contains(slots[k].rect, tx, ty)
    {
      for i := 0 to N
        invariant forall k :: 0 <= k < i ==> !Contains(slots[k].rect, tx, ty)
      {
        if Contains(slots[i].rect, tx, ty) {
          return Some(i);
        }
      }
      return None;
    }

    /** `_doSave`: the row gets one more than the largest index any row holds. */
    method DoSave(slot: int) returns (newIndex: int)
      requires Valid() && 0 <= slot < N
      modifies this`saveIndices
      ensures newIndex == NextSaveIndex(old(saveIndices))
      ensures saveIndices == old(saveIndices)[slot := newIndex]
      ensures Valid()
    {
      newIndex := MaxIndex(saveIndices) + 1;
      saveIndices := saveIndices[slot := newIndex];
    }

    /** OK on row `slot` (or a touch on the row already selected). */
    method Confirm(slot: int) returns (e: Effect)
      requires Valid() && 0 <= slot < N
      modifies this`saveIndices
      ensures Valid()
      ensures e == ConfirmEffect(kind, mode, slot, old(saveIndices))
      ensures e.Saved? ==> saveIndices == old(saveIndices)[slot := e.index]
      ensures !e.Saved? ==> saveIndices == old(saveIndices)
    {
      if kind == MenuScene && mode == SaveMode {
        var idx := DoSave(slot);
        e := Saved(slot, idx);
      } else {
        e := LoadStarted(slot);
      }
    }

    /** One frame of `update`: `_updateSaveSlotInput`, `_updateTitleLoadInput` or
        `_updateInput`, whichever the kind names. The first trigger in the order cancel,
        up, down, OK, touch decides; a touch outside every row does nothing. */
    method UpdateInput(input: InputFrame) returns (e: Effect)
      requires Valid()
      modifies this
      ensures Valid()
      ensures mode == old(mode)
      ensures forall k :: 0 <= k < N ==> slots[k].shown == old(slots)[k].shown
      ensures !e.Closed? ==> ownerActive == old(ownerActive)
      ensures !old(listening) ==> e == Nothing && selected == old(selected) && slots == old(slots)
      ensures e.Moved? ==> listening && e.from == old(selected) && e.to == selected != old(selected)
      ensures !e.Saved? ==> saveIndices == old(saveIndices)
      ensures !e.Moved? && !e.Closed? ==> selected == old(selected) && listening == old(listening)
      ensures old(listening) && CancelPressed(kind, input) ==>
                if kind == LoadScene then e == PoppedScene
                else e == Closed && !listening && ownerActive
                     && forall k :: 0 <= k < N ==> !slots[k].visible
      ensures old(listening) && !CancelPressed(kind, input) && input.up ==>
                e == Moved(old(selected), CursorUp(old(selected)))
      ensures old(listening) && !CancelPressed(kind, input) && !input.up && input.down ==>
                e == Moved(old(selected), CursorDown(old(selected)))
      ensures old(listening) && !CancelPressed(kind, input) && !input.up && !input.down && input.ok ==>
                e == ConfirmEffect(kind, mode, old(selected), old(saveIndices))
      ensures old(listening) && !CancelPressed(kind, input) && !input.up && !input.down && !input.ok ==>
                (input.touch.None? ==> e == Nothing)
                && (input.touch.Some? ==>
                    var (tx, ty) := input.touch.value;
                    (e == Nothing <==> forall k :: 0 <= k < N ==> !Contains(SlotRect(kind, boxWidth, boxHeight, k), tx, ty))
                    && forall k :: 0 <= k < N && Contains(SlotRect(kind, boxWidth, boxHeight, k), tx, ty) ==>
                         e == if k == old(selected) then ConfirmEffect(kind, mode, k, old(saveIndices))
                              else Moved(old(selected), k))
      ensures e.Saved? ==> saveIndices == old(saveIndices)[e.slot := e.index]
    {
      if !listening {
        return Nothing;
      }
      if CancelPressed(kind, input) {
        if kind == LoadScene {
          return PoppedScene;
        }
        CloseSaveSlots();
        return Closed;
      }
      if input.up {
        var from := selected;
        MoveCursor(CursorUp(selected));
        return Moved(from, selected);
      }
      if input.down {
        var from := selected;
        MoveCursor(CursorDown(selected));
        return Moved(from, selected);
      }
      if input.ok {
        e := Confirm(selected);
        return;
      }
      if input.touch.Some? {
        var (tx, ty) := input.touch.value;
        var hit := HitSlot(tx, ty);
        if hit.Some? {
          assert forall k :: 0 <= k < N && Contains(SlotRect(kind, boxWidth, boxHeight, k), tx, ty) ==> k == hit.value;
          if hit.value == selected {
            e := Confirm(hit.value);
          } else {
            var from := selected;
            MoveCursor(hit.value);
            e := Moved(from, hit.value);
          }
          return;
        }
      }
      return Nothing;
    }
  }

  /** What confirming row `slot` does: the menu saves or loads by `_saveMode`, the title
      screen and the load scene always load. */
  function ConfirmEffect(kind: SceneKind, mode: SaveMode, slot: nat, indices: seq<int>): (e: Effect)
    ensures e.Saved? <==> kind == MenuScene && mode == SaveMode
    ensures e.Saved? ==> e.slot == slot && forall i :: 0 <= i < |indices| ==> indices[i] < e.index
    ensures e.LoadStarted? <==> !e.Saved?
    ensures e.LoadStarted? ==> e.slot == slot
  {
    if kind == MenuScene && mode == SaveMode then Saved(slot, NextSaveIndex(indices)) else LoadStarted(slot)
  }

  /** The cancel test: `cancel || escape`, plus `TouchInput.isCancelled()` in the menu
      and on the title screen (the load scene does not look at it). */
  predicate CancelPressed(kind: SceneKind, input: InputFrame)
  {
    input.cancel || input.escape || (kind != LoadScene && input.touchCancelled)
  }

  /** A touch-cancel alone closes the rows in the menu and on the title screen, while the
      load scene answers only to the cancel and escape keys. */
  lemma TouchCancelOnlyOutsideLoad(kind: SceneKind, input: InputFrame)
    ensures CancelPressed(LoadScene, input) == CancelPressed(LoadScene, input.(touchCancelled := false))
    ensures kind != LoadScene && input.touchCancelled ==> CancelPressed(kind, input)
    ensures CancelPressed(kind, input) ==> input.cancel || input.escape || input.touchCancelled
  {
  }
}
