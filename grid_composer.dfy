/**
 * The grid composer (`grid_composer.c`): a fixed table of display cells,
 * each drawn by a renderer given as three callbacks, and a draw task that
 * takes draw descriptors from a queue and dispatches them to the cell they
 * address.
 *
 * The renderer callbacks are abstract: a call is recorded with its
 * arguments, and what it returns is an input. The table's dimensions
 * (`GRID_COMPOSER_CELL_MAX_ROWS`, `GRID_COMPOSER_CELL_MAX_COLS`) are
 * parameters of the instance.
 */
module GridComposer {
  import opened Wrappers
  import Esp

  /** `grid_composer_content_type`. */
  const CONTENT_INVALID: int := -1
  const CONTENT_TEXT: int := 0
  const CONTENT_FIGURE: int := 1
  const CONTENT_CLEAR: int := 2

  /** `grid_composer_figure_type`. */
  const FIGURE_INVALID: int := -1
  const FIGURE_RECT: int := 0
  const FIGURE_ROUND_RECT: int := 1
  const FIGURE_CIRCLE: int := 2
  const FIGURE_TRIANGLE: int := 3
  const FIGURE_LINE: int := 4

  /** `grid_composer_h_align` and `grid_composer_v_align`. */
  const H_ALIGN_NONE: int := 0
  const H_ALIGN_LEFT: int := 1
  const H_ALIGN_CENTER: int := 2
  const H_ALIGN_RIGHT: int := 3
  const V_ALIGN_NONE: int := 0
  const V_ALIGN_TOP: int := 1
  const V_ALIGN_CENTER: int := 2
  const V_ALIGN_BOTTOM: int := 3

  /**
   * `grid_composer_figure_info`: the type tag with the union member it
   * selects; `Unknown` is a tag with no member (`GRID_COMPOSER_FIGURE_INVALID`
   * or any value outside the enumeration). `hLen` and `vLen` are the line's
   * `w` and `h`, used only for horizontal and vertical lines.
   */
  datatype FigureInfo =
    | Rect(x: Esp.I16, y: Esp.I16, w: Esp.I16, h: Esp.I16)
    | RoundRect(x: Esp.I16, y: Esp.I16, w: Esp.I16, h: Esp.I16, r: Esp.I16)
    | Circle(x0: Esp.I16, y0: Esp.I16, r: Esp.I16)
    | Triangle(x0: Esp.I16, y0: Esp.I16, x1: Esp.I16, y1: Esp.I16, x2: Esp.I16, y2: Esp.I16)
    | Line(x0: Esp.I16, y0: Esp.I16, x1: Esp.I16, y1: Esp.I16, hLen: Esp.U16, vLen: Esp.U16)
    | Unknown(tag: int)

  /** `grid_composer_text_info`. */
  datatype TextInfo = TextInfo(x: Esp.I16, y: Esp.I16, vAlign: int, hAlign: int, text: string, font: Ptr)

  /** `grid_composer_draw_obj_info`. */
  datatype DrawObj = DrawObj(fill: bool, color: Esp.U16, contentType: int, figure: FigureInfo, text: TextInfo)

  /** `grid_composer_draw_descriptor`. */
  datatype Descriptor = Descriptor(row: Esp.I8, col: Esp.I8, clearBefore: bool, obj: DrawObj)

  /** `grid_composer_renderer`: a context and three callbacks, any of which may be NULL. */
  datatype Renderer = Renderer(userCtx: Ptr, drawText: Ptr, drawFigure: Ptr, clear: Ptr)

  /** `enum cell_dev_state`. */
  datatype DevState = DevInvalid | DevInitialized

  /** `struct grid_composer_cell_dev`. */
  datatype CellDev = CellDev(state: DevState, renderer: Renderer)

  /** A renderer callback invoked by `draw`, with its arguments. */
  datatype Call =
    | ClearCall(ctx: Ptr)
    | TextCall(ctx: Ptr, text: TextInfo, color: Esp.U16, fill: bool)
    | FigureCall(ctx: Ptr, figure: FigureInfo, color: Esp.U16, fill: bool)

  /** `validate_renderer`: all three callbacks are set. */
  predicate Complete(r: Renderer)
  {
    r.clear != NULL && r.drawFigure != NULL && r.drawText != NULL
  }

  /** The callback drawing the object's content, for the three known content types. */
  function ContentCall(r: Renderer, obj: DrawObj): Option<Call>
  {
    if obj.contentType == CONTENT_TEXT then Some(TextCall(r.userCtx, obj.text, obj.color, obj.fill))
    else if obj.contentType == CONTENT_FIGURE then Some(FigureCall(r.userCtx, obj.figure, obj.color, obj.fill))
    else if obj.contentType == CONTENT_CLEAR then Some(ClearCall(r.userCtx))
    else None
  }

  /** The renderer pointer `draw` checks before making a call. */
  function Callback(r: Renderer, call: Call): Ptr
  {
    match call
    case ClearCall(_) => r.clear
    case TextCall(_, _, _, _) => r.drawText
    case FigureCall(_, _, _, _) => r.drawFigure
  }

  /**
   * `draw`: an empty cell is refused; with `clear_before` the cell is
   * cleared first; then the content is drawn by the callback for its type,
   * and an unknown type is refused. A NULL callback fails the draw before it
   * would be called; `first` and `second` are what the first and the
   * second call made return.
   */
  function Draw(cell: Option<CellDev>, obj: DrawObj, clearBefore: bool, first: Esp.Err, second: Esp.Err)
    : (r: (Esp.Err, seq<Call>))
    ensures cell.None? ==> r == (Esp.ERR_INVALID_ARG, [])
    ensures |r.1| <= 2
    ensures cell.Some? && clearBefore && r.1 != [] ==> r.1[0] == ClearCall(cell.value.renderer.userCtx)
    ensures cell.Some? ==> forall k :: 0 <= k < |r.1| ==> Callback(cell.value.renderer, r.1[k]) != NULL
    ensures r.0 == Esp.OK <==>
              && cell.Some?
              && ContentCall(cell.value.renderer, obj).Some?
              && (clearBefore ==> cell.value.renderer.clear != NULL && first == Esp.OK)
              && Callback(cell.value.renderer, ContentCall(cell.value.renderer, obj).value) != NULL
              && (if clearBefore then second else first) == Esp.OK
    ensures r.0 == Esp.OK ==>
              r.1 == (if clearBefore then [ClearCall(cell.value.renderer.userCtx)] else [])
                     + [ContentCall(cell.value.renderer, obj).value]
    ensures cell.Some? && ContentCall(cell.value.renderer, obj).None? ==>
              r.0 != Esp.OK && |r.1| == (if clearBefore && cell.value.renderer.clear != NULL then 1 else 0)
    ensures cell.Some? && clearBefore && cell.value.renderer.clear == NULL ==> r == (Esp.FAIL, [])
    ensures cell.Some? && clearBefore && cell.value.renderer.clear != NULL && first != Esp.OK ==> r.0 == first
    ensures cell.Some? && !(clearBefore && (cell.value.renderer.clear == NULL || first != Esp.OK)) ==>
              var content := ContentCall(cell.value.renderer, obj);
              && (content.None? ==> r.0 == Esp.ERR_INVALID_ARG)
              && (content.Some? && Callback(cell.value.renderer, content.value) == NULL ==> r.0 == Esp.FAIL)
              && (content.Some? && Callback(cell.value.renderer, content.value) != NULL ==>
                    r.0 == (if clearBefore then second else first))
  {
    if cell.None? then (Esp.ERR_INVALID_ARG, [])
    else
      var rd := cell.value.renderer;
      if clearBefore && rd.clear == NULL then (Esp.FAIL, [])
      else if clearBefore && first != Esp.OK then (first, [ClearCall(rd.userCtx)])
      else
        var pre := if clearBefore then [ClearCall(rd.userCtx)] else [];
        var result := if clearBefore then second else first;
        if obj.contentType == CONTENT_TEXT then
          if rd.drawText == NULL then (Esp.FAIL, pre)
          else (result, pre + [TextCall(rd.userCtx, obj.text, obj.color, obj.fill)])
        else if obj.contentType == CONTENT_FIGURE then
          if rd.drawFigure == NULL then (Esp.FAIL, pre)
          else (result, pre + [FigureCall(rd.userCtx, obj.figure, obj.color, obj.fill)])
        else if obj.contentType == CONTENT_CLEAR then
          if rd.clear == NULL then (Esp.FAIL, pre)
          else (result, pre + [ClearCall(rd.userCtx)])
        else (Esp.ERR_INVALID_ARG, pre)
  }

  /** The draw task's descriptor check as written: only the upper bounds. */
  predicate AcceptedAsWritten(row: Esp.I8, col: Esp.I8, rows: nat, cols: nat)
  {
    !(row >= rows || col >= cols)
  }

  /** A descriptor with a negative row passes the check and indexes before the table. */
  lemma NegativeRowAccepted(rows: nat, cols: nat)
    requires rows > 0 && cols > 0
    ensures AcceptedAsWritten(-1, 0, rows, cols)
    ensures !(0 <= -1 < rows)
  {
  }

  /** The check the table's bounds call for: both indexes in range. */
  predicate Accepted(row: Esp.I8, col: Esp.I8, rows: nat, cols: nat)
  {
    0 <= row < rows && 0 <= col < cols
  }

  /** The intended check lets through exactly the descriptors the written one does that are not negative. */
  lemma AcceptedIsBoundedAsWritten(row: Esp.I8, col: Esp.I8, rows: nat, cols: nat)
    ensures Accepted(row, col, rows, cols) <==> AcceptedAsWritten(row, col, rows, cols) && row >= 0 && col >= 0
  {
  }

  /** Row-major order on cell positions. */
  predicate Before(r1: int, c1: int, r2: int, c2: int)
  {
    r1 < r2 || (r1 == r2 && c1 < c2)
  }

  /** A snapshot of the cell table. */
  type Table = seq<seq<Option<CellDev>>>

  predicate InTable(t: Table, r: int, c: int)
  {
    0 <= r < |t| && 0 <= c < |t[r]|
  }

  /** (r, c) is the first empty slot in row-major order. */
  ghost predicate IsFirstFree(t: Table, r: int, c: int)
  {
    && InTable(t, r, c) && t[r][c].None?
    && forall r', c' :: InTable(t, r', c') && Before(r', c', r, c) ==> t[r'][c'].Some?
  }

  ghost predicate Full(t: Table)
  {
    forall r, c :: InTable(t, r, c) ==> t[r][c].Some?
  }

  /** The table with one slot replaced. */
  function Put(t: Table, r: int, c: int, v: Option<CellDev>): (u: Table)
    requires InTable(t, r, c)
    ensures |u| == |t| && forall i :: 0 <= i < |t| ==> |u[i]| == |t[i]|
    ensures u[r][c] == v
    ensures forall i, j :: InTable(t, i, j) && (i, j) != (r, c) ==> u[i][j] == t[i][j]
  {
    t[r := t[r][c := v]]
  }

  /** There is only one first empty slot. */
  lemma FirstFreeUnique(t: Table, r1: int, c1: int, r2: int, c2: int)
    requires IsFirstFree(t, r1, c1) && IsFirstFree(t, r2, c2)
    ensures r1 == r2 && c1 == c2
  {
  }

  /** A full table has no first empty slot, and one with a first empty slot is not full. */
  lemma FirstFreeNotFull(t: Table, r: int, c: int)
    requires IsFirstFree(t, r, c)
    ensures !Full(t)
  {
  }

  class Composer {
    /** `cell_devices`: NULL or a pointer to a cell, per slot. */
    const cells: array2<Option<CellDev>>
    var drawQueue: bool
    var drawTask: bool

    ghost function Snapshot(): Table
      reads cells
    {
      seq(cells.Length0, r requires 0 <= r < cells.Length0 reads cells =>
        seq(cells.Length1, c requires 0 <= c < cells.Length1 reads cells => cells[r, c]))
    }

    /** The zero-initialised static instance, with a `rows` by `cols` table. */
    constructor (rows: nat, cols: nat)
      ensures cells.Length0 == rows && cells.Length1 == cols
      ensures !drawQueue && !drawTask
      ensures forall r, c :: 0 <= r < rows && 0 <= c < cols ==> cells[r, c].None?
    {
      cells := new Option<CellDev>[rows, cols]((_, _) => None);
      drawQueue := false;
      drawTask := false;
    }

    /** `grid_composer_init`: create the draw queue, then the draw task. */
    method Init(queueCreated: bool, taskCreated: bool) returns (err: Esp.Err)
      modifies this`drawQueue, this`drawTask
      ensures err == Esp.OK <==> queueCreated && taskCreated
      ensures err != Esp.OK ==> err == Esp.ERR_NO_MEM
      ensures drawQueue == queueCreated
      ensures drawTask == if queueCreated && taskCreated then true else old(drawTask)
    {
      drawQueue := queueCreated;
      if !queueCreated {
        return Esp.ERR_NO_MEM;
      }
      if !taskCreated {
        return Esp.ERR_NO_MEM;
      }
      drawTask := true;
      return Esp.OK;
    }

    /**
     * `push_cell`: scan the table in row-major order and put the cell into
     * the first empty slot; with no empty slot, fail and change nothing.
     */
    method PushCell(cell: CellDev) returns (err: Esp.Err, ghost row: int, ghost col: int)
      modifies cells
      ensures err == Esp.OK || err == Esp.ERR_NO_MEM
      ensures err == Esp.OK <==> !Full(old(Snapshot()))
      ensures err == Esp.OK ==>
                IsFirstFree(old(Snapshot()), row, col) && Snapshot() == Put(old(Snapshot()), row, col, Some(cell))
      ensures err != Esp.OK ==> Snapshot() == old(Snapshot())
    {
      row, col := 0, 0;
      var r := 0;
      while r < cells.Length0
        invariant 0 <= r <= cells.Length0
        invariant unchanged(cells)
        invariant forall i, j :: 0 <= i < r && 0 <= j < cells.Length1 ==> cells[i, j].Some?
      {
        var c := 0;
        while c < cells.Length1
          invariant 0 <= c <= cells.Length1
          invariant unchanged(cells)
          invariant forall j :: 0 <= j < c ==> cells[r, j].Some?
        {
          if cells[r, c].None? {
            ghost var before := Snapshot();
            assert IsFirstFree(before, r, c);
            cells[r, c] := Some(cell);
            ghost var after := Put(before, r, c, Some(cell));
            forall i | 0 <= i < cells.Length0
              ensures Snapshot()[i] == after[i]
            {
              assert forall j | 0 <= j < cells.Length1 :: Snapshot()[i][j] == after[i][j];
            }
            return Esp.OK, r, c;
          }
          c := c + 1;
        }
        r := r + 1;
      }
      assert Full(Snapshot());
      return Esp.ERR_NO_MEM, row, col;
    }

    /**
     * `grid_composer_add_cell`: refuse a missing or incomplete renderer and a
     * failed allocation; otherwise push a copy of the renderer, INITIALIZED.
     */
    method AddCell(renderer: Option<Renderer>, obtained: bool) returns (err: Esp.Err, ghost row: int, ghost col: int)
      modifies cells
      ensures renderer.None? || !Complete(renderer.value) ==> err == Esp.ERR_INVALID_ARG
      ensures renderer.Some? && Complete(renderer.value) && !obtained ==> err == Esp.ERR_NO_MEM
      ensures renderer.Some? && Complete(renderer.value) && obtained ==>
                (err == Esp.OK <==> !Full(old(Snapshot())))
      ensures renderer.Some? && Complete(renderer.value) && obtained && Full(old(Snapshot())) ==> err == Esp.ERR_NO_MEM
      ensures err == Esp.OK ==>
                && IsFirstFree(old(Snapshot()), row, col)
                && Snapshot() == Put(old(Snapshot()), row, col, Some(CellDev(DevInitialized, renderer.value)))
      ensures err != Esp.OK ==> Snapshot() == old(Snapshot())
    {
      row, col := 0, 0;
      if renderer.None? || !Complete(renderer.value) {
        return Esp.ERR_INVALID_ARG, row, col;
      }
      if !obtained {
        return Esp.ERR_NO_MEM, row, col;
      }
      var dev := CellDev(DevInitialized, renderer.value);
      err, row, col := PushCell(dev);
    }

    /**
     * `grid_composer_del`: free every cell and empty its slot, then delete
     * the draw queue and the draw task.
     */
    method Del() returns (err: Esp.Err)
      modifies cells, this`drawQueue, this`drawTask
      ensures err == Esp.OK
      ensures forall r, c :: 0 <= r < cells.Length0 && 0 <= c < cells.Length1 ==> cells[r, c].None?
      ensures !drawQueue && !drawTask
    {
      var r := 0;
      while r < cells.Length0
        invariant 0 <= r <= cells.Length0
        invariant forall i, j :: 0 <= i < r && 0 <= j < cells.Length1 ==> cells[i, j].None?
      {
        var c := 0;
        while c < cells.Length1
          invariant 0 <= c <= cells.Length1
          invariant forall i, j :: 0 <= i < r && 0 <= j < cells.Length1 ==> cells[i, j].None?
          invariant forall j :: 0 <= j < c ==> cells[r, j].None?
        {
          if cells[r, c].Some? {
            cells[r, c] := None;
          }
          c := c + 1;
        }
        r := r + 1;
      }
      drawQueue, drawTask := false, false;
      return Esp.OK;
    }

    /**
     * One turn of `task_draw_update` for a received descriptor, with the
     * bounds check on both sides: a descriptor outside the table is dropped;
     * one inside is drawn on the cell it addresses.
     */
    method DrawUpdate(desc: Descriptor, first: Esp.Err, second: Esp.Err)
      returns (drawn: bool, err: Esp.Err, calls: seq<Call>)
      ensures drawn <==> Accepted(desc.row, desc.col, cells.Length0, cells.Length1)
      ensures !drawn ==> calls == []
      ensures drawn ==> (err, calls) == Draw(cells[desc.row, desc.col], desc.obj, desc.clearBefore, first, second)
    {
      if !Accepted(desc.row, desc.col, cells.Length0, cells.Length1) {
        return false, Esp.OK, [];
      }
      var cell := cells[desc.row, desc.col];
      var outcome := Draw(cell, desc.obj, desc.clearBefore, first, second);
      return true, outcome.0, outcome.1;
    }
  }
}
