/**
 * The matplotlib glue of bangla_render/mpl_support.py.
 *
 * Every label is rasterised by the Renderer's tight crop, wrapped as an
 * image annotation and placed at a point computed from the bitmap's pixel
 * size, the figure's size in pixels and the axes' position in figure
 * fractions. Figures and axes are objects whose artist lists, native label
 * fields and subplot margins the helpers change in place; everything else
 * matplotlib does (transforms, drawing, layout engines) stays outside.
 * Python floats are modelled as exact reals.
 */
module MplSupport {
  import opened Renderer

  datatype Option<T> = None | Some(value: T)

  datatype Point = Point(x: real, y: real)

  /** Axes.get_position(): the axes' box in figure fractions. */
  datatype Bbox = Bbox(x0: real, y0: real, width: real, height: real) {
    function X1(): real { x0 + width }
    function Y1(): real { y0 + height }
  }

  /** The transform an annotation is anchored in: transData, transAxes or transFigure. */
  datatype Space = DataSpace | AxesSpace | FigureSpace

  /** Counter-clockwise quarter turns, taken modulo a full turn. */
  type QuarterTurns = t: int | 0 <= t < 4

  /**
   * The RGBA array handed to OffsetImage: the rasterised QImage, turned
   * counter-clockwise by np.rot90 `quarterTurns` times. Pixel values are not
   * modelled; only the orientation and therefore the dimensions are.
   */
  datatype Bitmap = Bitmap(raster: Raster, quarterTurns: QuarterTurns) {
    function Width(): int { if quarterTurns % 2 == 0 then raster.width else raster.height }
    function Height(): int { if quarterTurns % 2 == 0 then raster.height else raster.width }
  }

  /** AnnotationBbox(OffsetImage(image, zoom), xy, xycoords, frameon, box_alignment, zorder). */
  datatype Annotation = Annotation(image: Bitmap, zoom: real, xy: Point, space: Space,
                                   boxAlignment: Point, frameOn: bool, zorder: int)

  /** fig.subplotpars as fig.subplots_adjust sets them. */
  datatype SubplotParams = SubplotParams(left: real, right: real, bottom: real, top: real)

  /** Default font sizes of the title, the axis labels, free text and heatmap cells. */
  const TitleFontSize: int := 32
  const AxisLabelFontSize: int := 26
  const TextFontSize: int := 18
  const CellFontSize: int := 22

  /** Highest figure fraction a title anchor may take. */
  const TitleCeiling: real := 0.99

  /** zorder of the title and axis-label annotations. */
  const LabelZorder: int := 5

  /** matplotlib's default subplot margins (rcParams figure.subplot.*). */
  const DefaultSubplotParams: SubplotParams := SubplotParams(0.125, 0.9, 0.11, 0.88)

  /**
   * The position of the single cell of a 1 x 1 subplot grid: the box the four
   * margins enclose.
   */
  function SubplotBox(p: SubplotParams): (b: Bbox)
    ensures b.x0 == p.left && b.X1() == p.right
    ensures b.y0 == p.bottom && b.Y1() == p.top
  {
    Bbox(p.left, p.bottom, p.right - p.left, p.top - p.bottom)
  }

  /**
   * A matplotlib figure: its size, its figure-level artists, its subplot
   * margins and the axes that sit in the cell of its 1 x 1 subplot grid.
   */
  class Figure {
    var widthInches: real
    var heightInches: real
    var dpi: real
    var artists: seq<Annotation>
    var subplotpars: SubplotParams
    var subplots: seq<Axes>

    /** The figure's width in inches times its dpi: zero exactly when one of the two is. */
    function WidthPixels(): (px: real)
      reads this`widthInches, this`dpi
      ensures px == 0.0 <==> widthInches == 0.0 || dpi == 0.0
    {
      widthInches * dpi
    }

    /** The figure's height in inches times its dpi: zero exactly when one of the two is. */
    function HeightPixels(): (px: real)
      reads this`heightInches, this`dpi
      ensures px == 0.0 <==> heightInches == 0.0 || dpi == 0.0
    {
      heightInches * dpi
    }

    /** plt.figure(figsize=(widthInches, heightInches), dpi=dpi): no artists, no axes, default margins. */
    constructor (widthInches: real, heightInches: real, dpi: real)
      ensures this.widthInches == widthInches && this.heightInches == heightInches && this.dpi == dpi
      ensures artists == [] && subplots == [] && subplotpars == DefaultSubplotParams
    {
      this.widthInches, this.heightInches, this.dpi := widthInches, heightInches, dpi;
      artists, subplotpars, subplots := [], DefaultSubplotParams, [];
    }

    /** fig.add_subplot(): a new axes in the grid's cell, placed by the current margins. */
    method AddSubplot() returns (ax: Axes)
      modifies this`subplots
      ensures fresh(ax) && ax.figure == this && ax.position == SubplotBox(subplotpars)
      ensures ax.title == "" && ax.xlabel == "" && ax.ylabel == "" && ax.artists == []
      ensures subplots == old(subplots) + [ax]
    {
      ax := new Axes(this, SubplotBox(subplotpars));
      subplots := subplots + [ax];
    }
  }

  /** A matplotlib axes: its figure, its position and the native label fields. */
  class Axes {
    const figure: Figure
    var position: Bbox
    var title: string
    var xlabel: string
    var ylabel: string
    var artists: seq<Annotation>

    /** An axes placed at `position` in `fig`, with no labels and no artists yet. */
    constructor (fig: Figure, position: Bbox)
      ensures figure == fig && this.position == position
      ensures title == "" && xlabel == "" && ylabel == "" && artists == []
    {
      figure, this.position := fig, position;
      title, xlabel, ylabel, artists := "", "", "", [];
    }
  }

  // ---------------------------------------------------------------------------
  // Font size, bitmaps
  // ---------------------------------------------------------------------------

  /** `_resolve_font_size`: explicit font_size beats the matplotlib-style fontsize, which beats the default. */
  function ResolveFontSize(fontsize: Option<int>, fontSize: Option<int>, default: int): (fs: int)
    ensures fontSize.Some? ==> fs == fontSize.value
    ensures fontSize.None? && fontsize.Some? ==> fs == fontsize.value
    ensures fontSize.None? && fontsize.None? ==> fs == default
  {
    if fontSize.Some? then fontSize.value
    else if fontsize.Some? then fontsize.value
    else default
  }

  /**
   * add_bangla_in_cell resolves its size (default 22) and passes the result on
   * as font_size, so free text's own default (18) never applies to a cell.
   */
  lemma CellFontSizeReachesText(fontsize: Option<int>, fontSize: Option<int>)
    ensures ResolveFontSize(None, Some(ResolveFontSize(fontsize, fontSize, CellFontSize)), TextFontSize)
         == ResolveFontSize(fontsize, fontSize, CellFontSize)
    ensures fontsize.None? && fontSize.None? ==>
              ResolveFontSize(None, Some(ResolveFontSize(fontsize, fontSize, CellFontSize)), TextFontSize) == 22
  {
  }

  /** The bitmap every helper rasterises: render_text_qimage with only font_size given. */
  function LabelImage(metrics: Metrics, text: string, fontSize: int): (b: Bitmap)
    ensures b.quarterTurns == 0
    ensures b.Width() == metrics(Font(DefaultFamily, fontSize), text).width + 2 * DefaultPadding
    ensures b.Height() == metrics(Font(DefaultFamily, fontSize), text).height + 2 * DefaultPadding
  {
    Bitmap(TightCrop(metrics, text, Font(DefaultFamily, fontSize), "black", DefaultPadding), 0)
  }

  /** np.rot90(img, k=1): a quarter turn counter-clockwise swaps width and height. */
  function Rot90(b: Bitmap): (r: Bitmap)
    ensures r.raster == b.raster
    ensures r.Width() == b.Height() && r.Height() == b.Width()
  {
    Bitmap(b.raster, if b.quarterTurns == 3 then 0 else b.quarterTurns + 1)
  }

  /** np.rot90(img, k=-1): a quarter turn clockwise. */
  function Rot90Back(b: Bitmap): (r: Bitmap)
    ensures r.raster == b.raster
    ensures r.Width() == b.Height() && r.Height() == b.Width()
  {
    Bitmap(b.raster, if b.quarterTurns == 0 then 3 else b.quarterTurns - 1)
  }

  /**
   * Turning the y-label bitmap back the other way restores it exactly, and
   * four quarter turns are no turn at all.
   */
  lemma Rot90RoundTrip(b: Bitmap)
    ensures Rot90Back(Rot90(b)) == b && Rot90(Rot90Back(b)) == b
    ensures Rot90(Rot90(Rot90(Rot90(b)))) == b
  {
  }

  // ---------------------------------------------------------------------------
  // Pixel size -> figure fraction, and the three label anchors
  // ---------------------------------------------------------------------------

  /**
   * Offset in figure fractions that clears a bitmap of `pixels` pixels shown
   * at `zoom`, plus `extraPad`: converted back to pixels, the offset without
   * the pad is exactly the zoomed bitmap extent.
   */
  function LabelOffset(pixels: int, zoom: real, figurePixels: real, extraPad: real): (d: real)
    requires figurePixels != 0.0
    ensures (d - extraPad) * figurePixels == pixels as real * zoom
    ensures pixels >= 0 && zoom >= 0.0 && figurePixels > 0.0 ==> d >= extraPad
  {
    (pixels as real * zoom) / figurePixels + extraPad
  }

  /** A taller bitmap needs at least as large an offset. */
  lemma {:induction false} LabelOffsetMonotone(p1: int, p2: int, zoom: real, figurePixels: real, extraPad: real)
    requires p1 <= p2 && zoom >= 0.0 && figurePixels > 0.0
    ensures LabelOffset(p1, zoom, figurePixels, extraPad) <= LabelOffset(p2, zoom, figurePixels, extraPad)
  {
    var d1, d2 := LabelOffset(p1, zoom, figurePixels, extraPad), LabelOffset(p2, zoom, figurePixels, extraPad);
    assert (d2 - d1) * figurePixels == (p2 - p1) as real * zoom;
    assert (p2 - p1) as real * zoom >= 0.0;
  }

  /**
   * set_bangla_title's anchor: centred over the axes, one offset above the
   * axes' top edge, but never above 0.99 of the figure height (there is no
   * lower clamp).
   */
  function TitleAnchor(axes: Bbox, figHeightPixels: real, imageHeight: int, zoom: real, extraPad: real): (p: Point)
    requires figHeightPixels != 0.0
    ensures p.x - axes.x0 == axes.X1() - p.x
    ensures p.y <= TitleCeiling
    ensures p.y <= axes.Y1() + LabelOffset(imageHeight, zoom, figHeightPixels, extraPad)
    ensures p.y == TitleCeiling || p.y == axes.Y1() + LabelOffset(imageHeight, zoom, figHeightPixels, extraPad)
  {
    var y := axes.Y1() + LabelOffset(imageHeight, zoom, figHeightPixels, extraPad);
    Point(axes.x0 + axes.width / 2.0, if y < TitleCeiling then y else TitleCeiling)
  }

  /**
   * Unless clamped, the title sits exactly one offset above the axes, and so
   * at least `extraPad` above it; it is clamped exactly when that would reach
   * 0.99.
   */
  lemma TitleClearsAxes(axes: Bbox, figHeightPixels: real, imageHeight: int, zoom: real, extraPad: real)
    requires figHeightPixels > 0.0 && imageHeight >= 0 && zoom >= 0.0
    ensures var p, d := TitleAnchor(axes, figHeightPixels, imageHeight, zoom, extraPad),
                        LabelOffset(imageHeight, zoom, figHeightPixels, extraPad);
      && (p.y == TitleCeiling <==> axes.Y1() + d >= TitleCeiling)
      && (axes.Y1() + d < TitleCeiling ==> p.y - axes.Y1() == d >= extraPad)
  {
  }

  /** A taller title bitmap never moves the title anchor down. */
  lemma {:induction false} TitleRisesWithHeight(axes: Bbox, figHeightPixels: real, h1: int, h2: int,
                                                zoom: real, extraPad: real)
    requires figHeightPixels > 0.0 && h1 <= h2 && zoom >= 0.0
    ensures TitleAnchor(axes, figHeightPixels, h1, zoom, extraPad).y
         <= TitleAnchor(axes, figHeightPixels, h2, zoom, extraPad).y
  {
    LabelOffsetMonotone(h1, h2, zoom, figHeightPixels, extraPad);
  }

  /**
   * set_bangla_xlabel's anchor: centred under the axes, one offset below the
   * axes' bottom edge, but never below 0.0 (there is no upper clamp).
   */
  function XLabelAnchor(axes: Bbox, figHeightPixels: real, imageHeight: int, zoom: real, extraPad: real): (p: Point)
    requires figHeightPixels != 0.0
    ensures p.x - axes.x0 == axes.X1() - p.x
    ensures p.y >= 0.0
    ensures p.y >= axes.y0 - LabelOffset(imageHeight, zoom, figHeightPixels, extraPad)
    ensures p.y == 0.0 || p.y == axes.y0 - LabelOffset(imageHeight, zoom, figHeightPixels, extraPad)
  {
    var y := axes.y0 - LabelOffset(imageHeight, zoom, figHeightPixels, extraPad);
    Point(axes.x0 + axes.width / 2.0, if 0.0 < y then y else 0.0)
  }

  /**
   * For axes whose bottom edge is inside the figure, the x-label anchor is
   * never above that edge, and unless clamped it is at least `extraPad` below.
   */
  lemma XLabelBelowAxes(axes: Bbox, figHeightPixels: real, imageHeight: int, zoom: real, extraPad: real)
    requires figHeightPixels > 0.0 && imageHeight >= 0 && zoom >= 0.0 && extraPad >= 0.0
    requires axes.y0 >= 0.0
    ensures var p, d := XLabelAnchor(axes, figHeightPixels, imageHeight, zoom, extraPad),
                        LabelOffset(imageHeight, zoom, figHeightPixels, extraPad);
      && p.y <= axes.y0
      && (p.y == 0.0 <==> axes.y0 - d <= 0.0)
      && (axes.y0 - d > 0.0 ==> axes.y0 - p.y == d >= extraPad)
  {
  }

  /** A taller x-label bitmap never moves the x-label anchor up. */
  lemma {:induction false} XLabelSinksWithHeight(axes: Bbox, figHeightPixels: real, h1: int, h2: int,
                                                 zoom: real, extraPad: real)
    requires figHeightPixels > 0.0 && h1 <= h2 && zoom >= 0.0
    ensures XLabelAnchor(axes, figHeightPixels, h2, zoom, extraPad).y
         <= XLabelAnchor(axes, figHeightPixels, h1, zoom, extraPad).y
  {
    LabelOffsetMonotone(h1, h2, zoom, figHeightPixels, extraPad);
  }

  /**
   * set_bangla_ylabel's anchor: vertically centred beside the axes, one
   * offset (measured on the figure width) left of the axes' left edge, with no
   * clamp at all. `imageHeight` is the height of the bitmap before rotation,
   * which is the width of the rotated bitmap on screen.
   */
  function YLabelAnchor(axes: Bbox, figWidthPixels: real, imageHeight: int, zoom: real, extraPad: real): (p: Point)
    requires figWidthPixels != 0.0
    ensures axes.x0 - p.x == LabelOffset(imageHeight, zoom, figWidthPixels, extraPad)
    ensures p.y - axes.y0 == axes.Y1() - p.y
  {
    Point(axes.x0 - LabelOffset(imageHeight, zoom, figWidthPixels, extraPad), axes.y0 + axes.height / 2.0)
  }

  /** The y-label anchor is at least `extraPad` left of the axes. */
  lemma YLabelLeftOfAxes(axes: Bbox, figWidthPixels: real, imageHeight: int, zoom: real, extraPad: real)
    requires figWidthPixels > 0.0 && imageHeight >= 0 && zoom >= 0.0
    ensures YLabelAnchor(axes, figWidthPixels, imageHeight, zoom, extraPad).x <= axes.x0 - extraPad
  {
  }

  /**
   * Nothing keeps the y-label inside the figure: axes 0.05 from the left edge
   * of a 500-pixel-wide figure and a 100-pixel bitmap at zoom 0.4 put the
   * anchor at -0.08.
   */
  lemma YLabelCanLeaveFigure()
    ensures YLabelAnchor(Bbox(0.05, 0.2, 0.7, 0.6), 500.0, 100, 0.4, 0.05).x == -0.08
  {
  }

  // ---------------------------------------------------------------------------
  // bangla_text: zoom, alignment and coordinate lookups
  // ---------------------------------------------------------------------------

  /** The zoom bangla_text uses: the caller's, or 0.35 scaled by fs / 24 when none is given. */
  function TextZoom(zoom: Option<real>, fontSize: int): (z: real)
    ensures zoom.Some? ==> z == zoom.value
    ensures zoom.None? ==> z * 24.0 == 0.35 * fontSize as real
  {
    if zoom.None? then 0.35 * (fontSize as real / 24.0) else zoom.value
  }

  /**
   * The default zoom is 0.35 at 24 pt and proportional to the font size, so
   * the apparent glyph size follows the requested size.
   */
  lemma DefaultZoomProportional(fs1: int, fs2: int)
    ensures TextZoom(None, 24) == 0.35
    ensures TextZoom(None, fs1) * fs2 as real == TextZoom(None, fs2) * fs1 as real
    ensures fs1 <= fs2 ==> TextZoom(None, fs1) <= TextZoom(None, fs2)
  {
  }

  /** `ha_map.get(ha, 0.5)`. */
  function HorizontalAlignment(ha: string): (a: real)
    ensures a == 0.0 <==> ha == "left"
    ensures a == 1.0 <==> ha == "right"
    ensures a == 0.5 <==> ha != "left" && ha != "right"
  {
    var haMap := map["center" := 0.5, "left" := 0.0, "right" := 1.0];
    if ha in haMap then haMap[ha] else 0.5
  }

  /** `va_map.get(va, 0.5)`. */
  function VerticalAlignment(va: string): (a: real)
    ensures a == 0.0 <==> va == "bottom" || va == "baseline"
    ensures a == 1.0 <==> va == "top"
    ensures a == 0.5 <==> va != "bottom" && va != "baseline" && va != "top"
  {
    var vaMap := map["center" := 0.5, "middle" := 0.5, "bottom" := 0.0, "baseline" := 0.0, "top" := 1.0];
    if va in vaMap then vaMap[va] else 0.5
  }

  /** The transform bangla_text anchors in: "axes", "figure", and data space for anything else. */
  function CoordSpace(coord: string): (s: Space)
    ensures s == AxesSpace <==> coord == "axes"
    ensures s == FigureSpace <==> coord == "figure"
    ensures s == DataSpace <==> coord != "axes" && coord != "figure"
  {
    if coord == "axes" then AxesSpace
    else if coord == "figure" then FigureSpace
    else DataSpace
  }

  // ---------------------------------------------------------------------------
  // add_bangla_in_cell: cell centres
  // ---------------------------------------------------------------------------

  /**
   * Centre of cell (row, col) of a rows x cols heatmap in axes fractions:
   * scaled back to grid units it is half a cell past the cell's index, with
   * rows counted from the top when origin is "upper" and from the bottom
   * otherwise.
   */
  function CellCenter(row: int, col: int, rows: int, cols: int, origin: string): (p: Point)
    requires rows != 0 && cols != 0
    ensures p.x * cols as real == col as real + 0.5
    ensures origin == "upper" ==> (1.0 - p.y) * rows as real == row as real + 0.5
    ensures origin != "upper" ==> p.y * rows as real == row as real + 0.5
  {
    var x := (col as real + 0.5) / cols as real;
    if origin == "upper" then Point(x, 1.0 - (row as real + 0.5) / rows as real)
    else Point(x, (row as real + 0.5) / rows as real)
  }

  /** A fraction f with f * n == i + 0.5 for 0 <= i < n lies strictly between i/n and (i+1)/n. */
  lemma {:induction false} HalfStepInside(f: real, i: int, n: int)
    requires 0 <= i < n && f * n as real == i as real + 0.5
    ensures i as real / n as real < f < (i + 1) as real / n as real
    ensures 0.0 < f < 1.0
  {
    var m := n as real;
    assert m > 0.0;
    assert (i as real / m) * m == i as real;
    assert ((i + 1) as real / m) * m == i as real + 1.0;
    assert 0.0 <= i as real / m;
    assert (i + 1) as real / m <= 1.0 by {
      assert (i + 1) as real <= m;
    }
  }

  /**
   * For a cell inside the grid, its centre lies strictly inside the axes and
   * strictly inside the cell's own column band and row band.
   */
  lemma {:induction false} CellCenterInsideCell(row: int, col: int, rows: int, cols: int, origin: string)
    requires 0 <= row < rows && 0 <= col < cols
    ensures var p := CellCenter(row, col, rows, cols, origin);
      && 0.0 < p.x < 1.0 && 0.0 < p.y < 1.0
      && col as real / cols as real < p.x < (col + 1) as real / cols as real
      && (origin != "upper" ==> row as real / rows as real < p.y < (row + 1) as real / rows as real)
      && (origin == "upper" ==> row as real / rows as real < 1.0 - p.y < (row + 1) as real / rows as real)
  {
    var p := CellCenter(row, col, rows, cols, origin);
    HalfStepInside(p.x, col, cols);
    if origin == "upper" {
      HalfStepInside(1.0 - p.y, row, rows);
    } else {
      HalfStepInside(p.y, row, rows);
    }
  }

  /** "upper" and "lower" origins mirror each other: same x, and the two y values sum to 1. */
  lemma CellOriginsMirror(row: int, col: int, rows: int, cols: int, origin: string)
    requires rows != 0 && cols != 0 && origin != "upper"
    ensures CellCenter(row, col, rows, cols, "upper").x == CellCenter(row, col, rows, cols, origin).x
    ensures CellCenter(row, col, rows, cols, "upper").y + CellCenter(row, col, rows, cols, origin).y == 1.0
  {
  }

  /** Different cells of one grid get different centres. */
  lemma {:induction false} CellCentersDistinct(row1: int, col1: int, row2: int, col2: int,
                                               rows: int, cols: int, origin: string)
    requires rows != 0 && cols != 0 && (row1, col1) != (row2, col2)
    ensures CellCenter(row1, col1, rows, cols, origin) != CellCenter(row2, col2, rows, cols, origin)
  {
    var p1, p2 := CellCenter(row1, col1, rows, cols, origin), CellCenter(row2, col2, rows, cols, origin);
    if col1 != col2 {
      assert p1.x * cols as real != p2.x * cols as real;
    } else {
      assert row1 != row2;
      if origin == "upper" {
        assert (1.0 - p1.y) * rows as real == row1 as real + 0.5;
        assert (1.0 - p2.y) * rows as real == row2 as real + 0.5;
      } else {
        assert p1.y * rows as real == row1 as real + 0.5;
        assert p2.y * rows as real == row2 as real + 0.5;
      }
    }
  }

  /** Cell (0, 0) of a 3 x 3 grid: (1/6, 5/6) with origin "upper", (1/6, 1/6) with "lower". */
  lemma FirstCellOfThreeByThree()
    ensures CellCenter(0, 0, 3, 3, "upper") == Point(1.0 / 6.0, 5.0 / 6.0)
    ensures CellCenter(0, 0, 3, 3, "lower") == Point(1.0 / 6.0, 1.0 / 6.0)
  {
  }

  // ---------------------------------------------------------------------------
  // The label setters, free text and the layout helper
  // ---------------------------------------------------------------------------

  /**
   * set_bangla_title: rasterise the title, append one annotation anchored in
   * figure fractions at TitleAnchor to the figure's artists, then blank the
   * native title. Nothing else changes.
   */
  method SetBanglaTitle(ax: Axes, metrics: Metrics, text: string, fontsize: Option<int> := None,
                        fontSize: Option<int> := None, zoom: real := 0.40, extraPad: real := 0.01)
    requires ax.figure.HeightPixels() != 0.0
    modifies ax.figure`artists, ax`title
    ensures var image := LabelImage(metrics, text, ResolveFontSize(fontsize, fontSize, TitleFontSize));
      ax.figure.artists == old(ax.figure.artists) + [Annotation(image, zoom,
        TitleAnchor(ax.position, ax.figure.HeightPixels(), image.Height(), zoom, extraPad),
        FigureSpace, Point(0.5, 0.5), false, LabelZorder)]
    ensures ax.title == ""
  {
    var fig := ax.figure;
    var fs := ResolveFontSize(fontsize, fontSize, TitleFontSize);
    var qimg := RenderTextQImage(metrics, text, fontSize := fs);
    var img := Bitmap(qimg.Snapshot(), 0);

    var figHPx := fig.HeightPixels();
    var deltaFig := LabelOffset(qimg.height, zoom, figHPx, extraPad);

    var bbox := ax.position;
    var xFig := bbox.x0 + bbox.width / 2.0;
    var yFig := bbox.Y1() + deltaFig;
    yFig := if yFig < TitleCeiling then yFig else TitleCeiling;

    assert img == LabelImage(metrics, text, fs);
    assert img.Height() == qimg.height && figHPx == fig.HeightPixels();
    assert Point(xFig, yFig) == TitleAnchor(bbox, figHPx, qimg.height, zoom, extraPad);
    var ab := Annotation(img, zoom, Point(xFig, yFig), FigureSpace, Point(0.5, 0.5), false, LabelZorder);
    fig.artists := fig.artists + [ab];
    ax.title := "";
  }

  /**
   * set_bangla_xlabel: as the title, but anchored at XLabelAnchor with the
   * bitmap hanging below the anchor, and blanking the native x-label.
   */
  method SetBanglaXLabel(ax: Axes, metrics: Metrics, text: string, fontsize: Option<int> := None,
                         fontSize: Option<int> := None, zoom: real := 0.40, extraPad: real := 0.01)
    requires ax.figure.HeightPixels() != 0.0
    modifies ax.figure`artists, ax`xlabel
    ensures var image := LabelImage(metrics, text, ResolveFontSize(fontsize, fontSize, AxisLabelFontSize));
      ax.figure.artists == old(ax.figure.artists) + [Annotation(image, zoom,
        XLabelAnchor(ax.position, ax.figure.HeightPixels(), image.Height(), zoom, extraPad),
        FigureSpace, Point(0.5, 1.0), false, LabelZorder)]
    ensures ax.xlabel == ""
  {
    var fig := ax.figure;
    var fs := ResolveFontSize(fontsize, fontSize, AxisLabelFontSize);
    var qimg := RenderTextQImage(metrics, text, fontSize := fs);
    var img := Bitmap(qimg.Snapshot(), 0);

    var figHPx := fig.HeightPixels();
    var deltaFig := LabelOffset(qimg.height, zoom, figHPx, extraPad);

    var bbox := ax.position;
    var xFig := bbox.x0 + bbox.width / 2.0;
    var yFig := bbox.y0 - deltaFig;
    yFig := if 0.0 < yFig then yFig else 0.0;

    assert img == LabelImage(metrics, text, fs);
    assert img.Height() == qimg.height && figHPx == fig.HeightPixels();
    assert Point(xFig, yFig) == XLabelAnchor(bbox, figHPx, qimg.height, zoom, extraPad);
    var ab := Annotation(img, zoom, Point(xFig, yFig), FigureSpace, Point(0.5, 1.0), false, LabelZorder);
    fig.artists := fig.artists + [ab];
    ax.xlabel := "";
  }

  /**
   * set_bangla_ylabel: rasterise, turn the bitmap a quarter turn, append one
   * annotation anchored at YLabelAnchor (its offset is the unrotated height,
   * i.e. the rotated bitmap's width), then blank the native y-label.
   */
  method SetBanglaYLabel(ax: Axes, metrics: Metrics, text: string, fontsize: Option<int> := None,
                         fontSize: Option<int> := None, zoom: real := 0.40, extraPad: real := 0.05)
    requires ax.figure.WidthPixels() != 0.0
    modifies ax.figure`artists, ax`ylabel
    ensures var upright := LabelImage(metrics, text, ResolveFontSize(fontsize, fontSize, AxisLabelFontSize));
      ax.figure.artists == old(ax.figure.artists) + [Annotation(Rot90(upright), zoom,
        YLabelAnchor(ax.position, ax.figure.WidthPixels(), Rot90(upright).Width(), zoom, extraPad),
        FigureSpace, Point(0.5, 0.5), false, LabelZorder)]
    ensures ax.ylabel == ""
  {
    var fig := ax.figure;
    var fs := ResolveFontSize(fontsize, fontSize, AxisLabelFontSize);
    var qimg := RenderTextQImage(metrics, text, fontSize := fs);
    var img := Bitmap(qimg.Snapshot(), 0);
    assert img == LabelImage(metrics, text, fs);
    img := Rot90(img);

    var figWPx := fig.WidthPixels();
    var labelFrac := LabelOffset(qimg.height, zoom, figWPx, extraPad);

    var bbox := ax.position;
    var xFig := bbox.x0 - labelFrac;
    var yFig := bbox.y0 + bbox.height / 2.0;

    assert img.Width() == qimg.height && figWPx == fig.WidthPixels();
    assert Point(xFig, yFig) == YLabelAnchor(bbox, figWPx, qimg.height, zoom, extraPad);
    var ab := Annotation(img, zoom, Point(xFig, yFig), FigureSpace, Point(0.5, 0.5), false, LabelZorder);
    fig.artists := fig.artists + [ab];
    ax.ylabel := "";
  }

  /**
   * bangla_text: rasterise, anchor at (x, y) in the space `coord` names with
   * the alignment `ha`/`va` name, add the annotation to the axes and return it.
   */
  method BanglaText(ax: Axes, metrics: Metrics, x: real, y: real, text: string,
                    fontsize: Option<int> := None, fontSize: Option<int> := None,
                    coord: string := "data", ha: string := "center", va: string := "center",
                    zoom: Option<real> := None, zorder: int := 5)
    returns (ab: Annotation)
    modifies ax`artists
    ensures var fs := ResolveFontSize(fontsize, fontSize, TextFontSize);
      ab == Annotation(LabelImage(metrics, text, fs), TextZoom(zoom, fs), Point(x, y), CoordSpace(coord),
                       Point(HorizontalAlignment(ha), VerticalAlignment(va)), false, zorder)
    ensures ax.artists == old(ax.artists) + [ab]
  {
    var fs := ResolveFontSize(fontsize, fontSize, TextFontSize);
    var qimg := RenderTextQImage(metrics, text, fontSize := fs);
    var img := Bitmap(qimg.Snapshot(), 0);

    var z := if zoom.None? then 0.35 * (fs as real / 24.0) else zoom.value;

    var boxAlignment := Point(HorizontalAlignment(ha), VerticalAlignment(va));

    var space;
    if coord == "axes" {
      space := AxesSpace;
    } else if coord == "figure" {
      space := FigureSpace;
    } else {
      space := DataSpace;
    }

    ab := Annotation(img, z, Point(x, y), space, boxAlignment, false, zorder);
    ax.artists := ax.artists + [ab];
  }

  /**
   * add_bangla_in_cell: free text centred on a heatmap cell, in axes
   * fractions, with the cell's own default size (22) and zorder (6).
   */
  method AddBanglaInCell(ax: Axes, metrics: Metrics, row: int, col: int, text: string, rows: int, cols: int,
                         fontsize: Option<int> := None, fontSize: Option<int> := None,
                         origin: string := "upper", zoom: Option<real> := None, zorder: int := 6)
    returns (ab: Annotation)
    requires rows != 0 && cols != 0
    modifies ax`artists
    ensures var fs := ResolveFontSize(fontsize, fontSize, CellFontSize);
      ab == Annotation(LabelImage(metrics, text, fs), TextZoom(zoom, fs), CellCenter(row, col, rows, cols, origin),
                       AxesSpace, Point(0.5, 0.5), false, zorder)
    ensures ax.artists == old(ax.artists) + [ab]
  {
    var fs := ResolveFontSize(fontsize, fontSize, CellFontSize);

    var xAxes := (col as real + 0.5) / cols as real;
    var yAxes;
    if origin == "upper" {
      yAxes := 1.0 - (row as real + 0.5) / rows as real;
    } else {
      yAxes := (row as real + 0.5) / rows as real;
    }

    ab := BanglaText(ax, metrics, xAxes, yAxes, text, coord := "axes", ha := "center", va := "center",
                     fontSize := Some(fs), zoom := zoom, zorder := zorder);
  }

  /**
   * The default margins place a lone subplot at (0.125, 0.11, 0.775, 0.77);
   * apply_bangla_layout's defaults move it to (0.18, 0.22, 0.70, 0.62), whose
   * centre line, where the title and x-label go, is x = 0.53.
   */
  lemma LayoutMovesSubplot()
    ensures SubplotBox(DefaultSubplotParams) == Bbox(0.125, 0.11, 0.775, 0.77)
    ensures SubplotBox(SubplotParams(0.18, 0.88, 0.22, 0.84)) == Bbox(0.18, 0.22, 0.70, 0.62)
    ensures forall h: real, n: int, z: real, pad: real | h != 0.0 ::
      TitleAnchor(SubplotBox(SubplotParams(0.18, 0.88, 0.22, 0.84)), h, n, z, pad).x == 0.53
  {
  }

  /**
   * apply_bangla_layout: fig.subplots_adjust with the four margins given,
   * which matplotlib accepts only when left < right and bottom < top. Every
   * axes in the subplot cell is moved to the box the new margins enclose;
   * nothing else about those axes changes.
   */
  method ApplyBanglaLayout(fig: Figure, left: real := 0.18, right: real := 0.88,
                           bottom: real := 0.22, top: real := 0.84)
    requires left < right && bottom < top
    modifies fig`subplotpars, fig.subplots
    ensures fig.subplotpars == SubplotParams(left, right, bottom, top)
    ensures forall a | a in fig.subplots :: a.position == SubplotBox(fig.subplotpars)
    ensures forall a | a in fig.subplots ::
      a.title == old(a.title) && a.xlabel == old(a.xlabel) && a.ylabel == old(a.ylabel) && a.artists == old(a.artists)
  {
    fig.subplotpars := SubplotParams(left, right, bottom, top);
    var box := SubplotBox(fig.subplotpars);
    forall a | a in fig.subplots {
      a.position := box;
    }
  }

  /**
   * The line-plot usage: margins first, which moves the subplot to
   * (0.18, 0.22, 0.70, 0.62), then a 32 pt title and 24 pt x- and y-labels
   * placed against that box. Exactly three figure artists are appended, in
   * call order, and all three native labels end blank.
   */
  method LabelLinePlot(ax: Axes, metrics: Metrics, title: string, xlabel: string, ylabel: string)
    requires ax in ax.figure.subplots
    requires ax.figure.HeightPixels() != 0.0 && ax.figure.WidthPixels() != 0.0
    modifies ax.figure`subplotpars, ax.figure`artists, ax.figure.subplots
    ensures ax.figure.subplotpars == SubplotParams(0.18, 0.88, 0.22, 0.84)
    ensures ax.position == SubplotBox(ax.figure.subplotpars)
    ensures var fig, box := ax.figure, SubplotBox(SubplotParams(0.18, 0.88, 0.22, 0.84));
      var t, x, y := LabelImage(metrics, title, 32), LabelImage(metrics, xlabel, 24), Rot90(LabelImage(metrics, ylabel, 24));
      fig.artists == old(fig.artists) + [
        Annotation(t, 0.40, TitleAnchor(box, fig.HeightPixels(), t.Height(), 0.40, 0.01),
                   FigureSpace, Point(0.5, 0.5), false, LabelZorder),
        Annotation(x, 0.40, XLabelAnchor(box, fig.HeightPixels(), x.Height(), 0.40, 0.01),
                   FigureSpace, Point(0.5, 1.0), false, LabelZorder),
        Annotation(y, 0.40, YLabelAnchor(box, fig.WidthPixels(), y.Width(), 0.40, 0.05),
                   FigureSpace, Point(0.5, 0.5), false, LabelZorder)]
    ensures ax.title == "" && ax.xlabel == "" && ax.ylabel == ""
    ensures ax.artists == old(ax.artists)
    ensures forall a | a in ax.figure.subplots && a != ax ::
      && a.position == SubplotBox(ax.figure.subplotpars)
      && a.title == old(a.title) && a.xlabel == old(a.xlabel) && a.ylabel == old(a.ylabel)
      && a.artists == old(a.artists)
  {
    var fig := ax.figure;
    ApplyBanglaLayout(fig);
    SetBanglaTitle(ax, metrics, title, fontSize := Some(32));
    SetBanglaXLabel(ax, metrics, xlabel, fontSize := Some(24));
    SetBanglaYLabel(ax, metrics, ylabel, fontSize := Some(24));
  }
}
