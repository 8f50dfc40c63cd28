/**
 * The Adafruit renderer (`adafruit_renderer.cpp`): the three grid composer
 * callbacks for an SH110x OLED behind a PCA9548 I2C multiplexer, with text
 * drawn through U8g2.
 *
 * The display libraries are not modelled: what a callback does to them is
 * the sequence of library calls it makes (`Op`), and what the library
 * reports back (font metrics, text width, display size) is an input.
 */
module AdafruitRenderer {
  import opened Wrappers
  import Esp
  import GC = GridComposer

  /** `adafruit_renderer_ctx`: the display, the text renderer, the I2C bus and the mux channel. */
  datatype Ctx = Ctx(oled: Ptr, u8g2: Ptr, tw: Ptr, idx: Esp.U16)

  /** The drawing primitive of the display library a figure is drawn with. */
  datatype Kind = KRect | KRoundRect | KCircle | KTriangle | KLine

  /** A call into the display libraries. */
  datatype Op =
    | MuxWrite(mask: bv8)                    // one transmission to the multiplexer's address
    | Prim(kind: Kind, filled: bool, coords: seq<int>, color: Esp.U16)
    | SetFont(font: Ptr)
    | SetForeground(color: Esp.U16)
    | DrawUtf8(x: int, y: int, text: string)
    | Home
    | ClearDisplay
    | Display

  /** What the libraries report while a text is drawn. */
  datatype Metrics = Metrics(ascent: int, descent: int, textWidth: int, width: int, height: int)

  /** The one-hot channel mask written to the multiplexer. */
  function PcaMask(i: nat): (m: bv8)
    requires i <= 7
    ensures m != 0 && m & (m - 1) == 0
    ensures m >> i == 1
  {
    (1 as bv8) << i
  }

  /** `adafruit_pca_select`: select channel `i`; a channel past 7 selects nothing. */
  function PcaSelect(i: Esp.U16): (ops: seq<Op>)
    ensures i > 7 <==> ops == []
    ensures i <= 7 ==> ops == [MuxWrite(PcaMask(i))]
  {
    if i > 7 then [] else [MuxWrite(PcaMask(i))]
  }

  /** The checks every callback starts with: the context and its three objects are set. */
  predicate Usable(ctx: Option<Ctx>)
  {
    ctx.Some? && ctx.value.u8g2 != NULL && ctx.value.oled != NULL && ctx.value.tw != NULL
  }

  /** Integer division by two as C does it, truncating toward zero. */
  function CDiv2(n: int): (q: int)
    ensures n >= 0 ==> 0 <= n - 2 * q <= 1
    ensures n < 0 ==> -1 <= n - 2 * q <= 0
  {
    if n >= 0 then n / 2 else -((-n) / 2)
  }

  /** The x of the text cursor for a horizontal alignment. */
  function HAlign(align: int, x: int, width: int, textWidth: int): (r: int)
    ensures align == GC.H_ALIGN_RIGHT ==> r + textWidth == width
    ensures align == GC.H_ALIGN_CENTER && textWidth <= width ==>
              0 <= (width - textWidth - r) - r <= 1
    ensures align == GC.H_ALIGN_CENTER && textWidth > width ==>
              -1 <= (width - textWidth - r) - r <= 0
    ensures align != GC.H_ALIGN_RIGHT && align != GC.H_ALIGN_CENTER ==> r == x
  {
    if align == GC.H_ALIGN_RIGHT then width - textWidth
    else if align == GC.H_ALIGN_CENTER then CDiv2(width - textWidth)
    else x
  }

  /**
   * The y of the text baseline for a vertical alignment: at the font's
   * ascent under the top, at the display's height plus the (signed) font
   * descent, or halfway down the display plus the font's height, halved
   * toward zero.
   */
  function VAlign(align: int, y: int, height: int, ascent: int, descent: int): (r: int)
    ensures align == GC.V_ALIGN_TOP ==> r - ascent == 0
    ensures align == GC.V_ALIGN_BOTTOM ==> r - descent == height
    ensures align == GC.V_ALIGN_CENTER && height + ascent - descent >= 0 ==>
              0 <= (height + ascent - descent) - 2 * r <= 1
    ensures align == GC.V_ALIGN_CENTER && height + ascent - descent < 0 ==>
              -1 <= (height + ascent - descent) - 2 * r <= 0
    ensures align != GC.V_ALIGN_TOP && align != GC.V_ALIGN_BOTTOM && align != GC.V_ALIGN_CENTER ==> r == y
  {
    if align == GC.V_ALIGN_TOP then ascent
    else if align == GC.V_ALIGN_BOTTOM then height + descent
    else if align == GC.V_ALIGN_CENTER then CDiv2(height + ascent - descent)
    else y
  }

  /**
   * `adafruit_gfx_draw_text`: select the channel, set font and colour, place
   * the cursor by the alignments and draw the text; a cursor with a negative
   * coordinate is refused before anything is drawn.
   */
  function DrawText(ctx: Option<Ctx>, info: GC.TextInfo, color: Esp.U16, m: Metrics): (r: (Esp.Err, seq<Op>))
    ensures !Usable(ctx) ==> r == (Esp.ERR_INVALID_ARG, [])
    ensures r.0 == Esp.OK || r.0 == Esp.ERR_INVALID_ARG
    ensures Usable(ctx) ==>
              && |r.1| >= |PcaSelect(ctx.value.idx)| + 2
              && r.1[..|PcaSelect(ctx.value.idx)|] == PcaSelect(ctx.value.idx)
              && r.1[|PcaSelect(ctx.value.idx)|] == SetFont(info.font)
              && r.1[|PcaSelect(ctx.value.idx)| + 1] == SetForeground(color)
    ensures r.0 == Esp.OK <==>
              Usable(ctx)
              && HAlign(info.hAlign, info.x, m.width, m.textWidth) >= 0
              && VAlign(info.vAlign, info.y, m.height, m.ascent, m.descent) >= 0
    ensures r.0 == Esp.OK ==>
              && |r.1| == |PcaSelect(ctx.value.idx)| + 4
              && r.1[|r.1| - 2] == DrawUtf8(HAlign(info.hAlign, info.x, m.width, m.textWidth),
                                            VAlign(info.vAlign, info.y, m.height, m.ascent, m.descent),
                                            info.text)
              && r.1[|r.1| - 1] == Display
    ensures Usable(ctx) && r.0 != Esp.OK ==> |r.1| == |PcaSelect(ctx.value.idx)| + 2
  {
    if !Usable(ctx) then (Esp.ERR_INVALID_ARG, [])
    else
      var setup := PcaSelect(ctx.value.idx) + [SetFont(info.font), SetForeground(color)];
      var x := HAlign(info.hAlign, info.x, m.width, m.textWidth);
      var y := VAlign(info.vAlign, info.y, m.height, m.ascent, m.descent);
      if !(y >= 0 && x >= 0) then (Esp.ERR_INVALID_ARG, setup)
      else (Esp.OK, setup + [DrawUtf8(x, y, info.text), Display])
  }

  /** The primitive a figure is drawn with. */
  function KindOf(f: GC.FigureInfo): Option<Kind>
  {
    match f
    case Rect(_, _, _, _) => Some(KRect)
    case RoundRect(_, _, _, _, _) => Some(KRoundRect)
    case Circle(_, _, _) => Some(KCircle)
    case Triangle(_, _, _, _, _, _) => Some(KTriangle)
    case Line(_, _, _, _, _, _) => Some(KLine)
    case Unknown(_) => None
  }

  /** The coordinates a figure defines, in its structure's field order (a line's lengths are not used). */
  function Coords(f: GC.FigureInfo): seq<int>
  {
    match f
    case Rect(x, y, w, h) => [x, y, w, h]
    case RoundRect(x, y, w, h, rad) => [x, y, w, h, rad]
    case Circle(x0, y0, rad) => [x0, y0, rad]
    case Triangle(x0, y0, x1, y1, x2, y2) => [x0, y0, x1, y1, x2, y2]
    case Line(x0, y0, x1, y1, _, _) => [x0, y0, x1, y1]
    case Unknown(_) => []
  }

  /**
   * `adafruit_gfx_draw_figure`: select the channel, draw the figure with
   * the filled or the outlined primitive for its type (a line has only
   * one) and refresh the display; an unknown type is refused after the
   * channel is selected and without a refresh.
   */
  function DrawFigure(ctx: Option<Ctx>, info: GC.FigureInfo, color: Esp.U16, fill: bool): (r: (Esp.Err, seq<Op>))
    ensures !Usable(ctx) ==> r == (Esp.ERR_INVALID_ARG, [])
    ensures Usable(ctx) && info.Unknown? ==> r == (Esp.ERR_INVALID_ARG, PcaSelect(ctx.value.idx))
    ensures r.0 == Esp.OK <==> Usable(ctx) && !info.Unknown?
    ensures r.0 == Esp.OK ==>
              && |r.1| == |PcaSelect(ctx.value.idx)| + 2
              && r.1[..|PcaSelect(ctx.value.idx)|] == PcaSelect(ctx.value.idx)
              && Drawn(r.1[|r.1| - 2], info, color, fill)
              && r.1[|r.1| - 1] == Display
  {
    if !Usable(ctx) then (Esp.ERR_INVALID_ARG, [])
    else
      var select := PcaSelect(ctx.value.idx);
      match info
      case Rect(x, y, w, h) =>
        (Esp.OK, select + [Prim(KRect, fill, [x, y, w, h], color), Display])
      case RoundRect(x, y, w, h, rad) =>
        (Esp.OK, select + [Prim(KRoundRect, fill, [x, y, w, h, rad], color), Display])
      case Circle(x0, y0, rad) =>
        (Esp.OK, select + [Prim(KCircle, fill, [x0, y0, rad], color), Display])
      case Triangle(x0, y0, x1, y1, x2, y2) =>
        (Esp.OK, select + [Prim(KTriangle, fill, [x0, y0, x1, y1, x2, y2], color), Display])
      case Line(x0, y0, x1, y1, _, _) =>
        (Esp.OK, select + [Prim(KLine, false, [x0, y0, x1, y1], color), Display])
      case Unknown(_) =>
        (Esp.ERR_INVALID_ARG, select)
  }

  /** The op draws the figure: its primitive, its coordinates, its colour, filled when asked unless it is a line. */
  predicate Drawn(op: Op, info: GC.FigureInfo, color: Esp.U16, fill: bool)
  {
    && KindOf(info).Some?
    && op == Prim(KindOf(info).value, fill && !info.Line?, Coords(info), color)
  }

  /** Filling changes the primitive's variant, never the geometry it is given. */
  lemma FillKeepsGeometry(ctx: Option<Ctx>, info: GC.FigureInfo, color: Esp.U16)
    requires Usable(ctx) && !info.Unknown?
    ensures var f, o := DrawFigure(ctx, info, color, true).1, DrawFigure(ctx, info, color, false).1;
            |f| == |o| && f[|f| - 2].coords == o[|o| - 2].coords == Coords(info)
  {
  }

  /** A line is drawn the same way whether or not a fill is asked for. */
  lemma LineIgnoresFill(ctx: Option<Ctx>, info: GC.FigureInfo, color: Esp.U16)
    requires info.Line?
    ensures DrawFigure(ctx, info, color, true) == DrawFigure(ctx, info, color, false)
  {
  }

  /** `adafruit_gfx_draw_figure` as written: the outlined triangle is given `x1` where `y1` belongs. */
  function DrawFigureAsWritten(ctx: Option<Ctx>, info: GC.FigureInfo, color: Esp.U16, fill: bool): (r: (Esp.Err, seq<Op>))
    ensures !(info.Triangle? && !fill) ==> r == DrawFigure(ctx, info, color, fill)
    ensures Usable(ctx) && info.Triangle? && !fill ==>
              && r.0 == Esp.OK && |r.1| == |PcaSelect(ctx.value.idx)| + 2
              && (Drawn(r.1[|r.1| - 2], info, color, fill) <==> info.x1 == info.y1)
  {
    if Usable(ctx) && info.Triangle? && !fill then
      (Esp.OK, PcaSelect(ctx.value.idx)
               + [Prim(KTriangle, false, [info.x0, info.y0, info.x1, info.x1, info.x2, info.y2], color), Display])
    else DrawFigure(ctx, info, color, fill)
  }

  /** A triangle whose second vertex is off the diagonal is outlined at the wrong place. */
  lemma OutlinedTriangleMisplaced(ctx: Option<Ctx>, color: Esp.U16)
    requires Usable(ctx)
    ensures var info := GC.Triangle(0, 0, 10, 20, 30, 0);
            var o := DrawFigureAsWritten(ctx, info, color, false).1;
            var f := DrawFigureAsWritten(ctx, info, color, true).1;
            o[|o| - 2].coords != Coords(info) && f[|f| - 2].coords == Coords(info)
  {
  }

  /** `adafruit_gfx_clear`: select the channel, home the text cursor, clear and refresh the display. */
  function Clear(ctx: Option<Ctx>): (r: (Esp.Err, seq<Op>))
    ensures r.0 == Esp.OK <==> Usable(ctx)
    ensures r.0 != Esp.OK ==> r == (Esp.ERR_INVALID_ARG, [])
    ensures r.0 == Esp.OK ==> r.1 == PcaSelect(ctx.value.idx) + [Home, ClearDisplay, Display]
  {
    if !Usable(ctx) then (Esp.ERR_INVALID_ARG, [])
    else (Esp.OK, PcaSelect(ctx.value.idx) + [Home, ClearDisplay, Display])
  }

  /** Every callback that succeeds ends with exactly one display refresh; one that fails does not refresh. */
  lemma RefreshOnlyOnSuccess(ctx: Option<Ctx>, text: GC.TextInfo, figure: GC.FigureInfo, color: Esp.U16, fill: bool, m: Metrics)
    ensures var t := DrawText(ctx, text, color, m);
            t.0 == Esp.OK <==> Display in t.1
    ensures var f := DrawFigure(ctx, figure, color, fill);
            f.0 == Esp.OK <==> Display in f.1
    ensures var c := Clear(ctx);
            c.0 == Esp.OK <==> Display in c.1
  {
    if Usable(ctx) {
      var sel := PcaSelect(ctx.value.idx);
      assert Display !in sel;
      var t := DrawText(ctx, text, color, m);
      if t.0 != Esp.OK {
        assert t.1 == sel + [SetFont(text.font), SetForeground(color)];
      }
      var f := DrawFigure(ctx, figure, color, fill);
      if f.0 != Esp.OK {
        assert f.1 == sel;
      }
    }
  }
}
