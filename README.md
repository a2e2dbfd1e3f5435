# bangla-render placement and tight-crop core, in Dafny

bangla-render draws Bengali text that matplotlib cannot shape. Qt shapes and
rasterises each label into a tightly cropped bitmap. The bitmap is then pasted
onto the matplotlib figure as an image annotation. The annotation sits at a point
computed from the bitmap's pixel size, the figure's size in pixels and the axes'
position in figure fractions. This project models that layer and proves
properties of it:

- `renderer.dfy` (module `Renderer`) covers `bangla_render/renderer.py`. It
  holds the integer layout around the Qt calls: the tight-crop canvas size and
  draw origin of `render_text_qimage`, the background choice and baseline of
  `render_text`, and the inset rectangle and text flags of `render_paragraph`.
  A QImage is the class `Image`. It is allocated with a size, and `Fill` and
  `DrawText` then change it in place. The font's bounding box is a parameter
  `metrics: (Font, string) -> Rect` that stands for `QFontMetrics.boundingRect`.
- `mpl_support.dfy` (module `MplSupport`) covers `bangla_render/mpl_support.py`.
  It holds the pure placement arithmetic as functions with lemmas: font-size
  precedence, pixel-to-fraction offsets, the title, x-label and y-label anchors
  with their one-sided clamps, the alignment and coordinate-space lookups, the
  default zoom and the heatmap cell centres. It also holds the state changes as
  methods on `Figure` and `Axes` objects. Each label setter appends one
  annotation to `fig.artists` and then blanks its own native field. `bangla_text`
  adds one annotation to the axes. `apply_bangla_layout` overwrites the four
  subplot margins and moves the axes of the 1×1 subplot grid to the box they
  enclose.

Python floats are exact `real`s and pixel sizes are `int`s. Python's `//` in
`render_text` is floor division. For the divisor 2 that is Dafny's `/`, and
`Baseline` states it through the floor bounds.

Each label is clamped on one side only. The title has an upper clamp at 0.99,
the x-label has a lower clamp at 0.0, and the y-label has no clamp at all:
`YLabelCanLeaveFigure` exhibits a negative y-label anchor. The title and
axis-label zorder is the fixed value 5 (`LabelZorder`).

## Model

| member | source | states |
|---|---|---|
| Renderer.Image.constructor | bangla_render/renderer.py:106 | a new QImage has the requested size, no fill yet and no strokes |
| Renderer.Image.Fill | bangla_render/renderer.py:107 | filling records the fill, erases earlier strokes and keeps the size |
| Renderer.Image.DrawText | bangla_render/renderer.py:115-117 | drawing appends exactly one stroke and changes nothing else |
| Renderer.CanvasSize | bangla_render/renderer.py:103-104 | the tight canvas exceeds the glyph box by exactly 2·padding on each axis |
| Renderer.DrawOrigin | bangla_render/renderer.py:115-116 | the draw origin puts the glyph box's top-left at (padding, padding) and its bottom-right exactly padding short of the canvas's far edges |
| Renderer.TightCrop | bangla_render/renderer.py:98-120 | the returned image is the glyph box plus 2·padding on each axis, filled with Qt's transparent, and holds one stroke of the text in the given font and pen, drawn so the box's top-left corner lands at (padding, padding) |
| Renderer.TightCropFitsGlyphBox | bangla_render/renderer.py:101-117 | the tight crop has one stroke, and for a non-negative box and padding the box lies inside the canvas with exactly padding slack on every side |
| Renderer.RenderTextQImage | bangla_render/renderer.py:85-120 | the returned image is a fresh tight crop (default padding 10), always filled transparent whatever the colour, holding one stroke at the compensated origin |
| Renderer.Background | bangla_render/renderer.py:27-30 | render_text fills transparent if and only if bg is "transparent", and otherwise with the colour named by bg |
| Renderer.Baseline | bangla_render/renderer.py:41-42 | the baseline is floor(height/2) + floor(font_size/2) − 5 for every integer, negatives included, and twice it is within [h+fs−12, h+fs−10] |
| Renderer.RenderText | bangla_render/renderer.py:13-47 | returns output_path, and the saved image has the requested size, the bg-dependent fill and one stroke at (10, Baseline) |
| Renderer.InsetRect | bangla_render/renderer.py:75 | the paragraph rectangle leaves exactly margin pixels on each of the four sides |
| Renderer.ParagraphFlags | bangla_render/renderer.py:76 | the flags always carry word wrap and keep every requested alignment bit |
| Renderer.ParagraphFlagsAddNothingElse | bangla_render/renderer.py:76 | the flags set no bit beyond word wrap and the requested alignment |
| Renderer.RenderParagraph | bangla_render/renderer.py:50-82 | returns output_path, and the saved image is always filled with bg (no transparent case) and holds one word-wrapped stroke in the inset rectangle |
| MplSupport.ResolveFontSize | bangla_render/mpl_support.py:26-35 | font_size if given, else fontsize if given, else the default |
| MplSupport.CellFontSizeReachesText | bangla_render/mpl_support.py:267-287 | the cell's resolved size (default 22) survives re-resolution in bangla_text, so the text default 18 never applies to a cell |
| MplSupport.LabelImage | bangla_render/mpl_support.py:58-59 | a label bitmap is upright and is the glyph box plus 2·10 pixels on each axis |
| MplSupport.Rot90 | bangla_render/mpl_support.py:156 | a quarter turn keeps the pixels and swaps width and height |
| MplSupport.Rot90Back | bangla_render/mpl_support.py:156 | the opposite quarter turn also swaps width and height |
| MplSupport.Rot90RoundTrip | bangla_render/mpl_support.py:155-157 | turning the y-label bitmap back restores it exactly, and four turns are the identity |
| MplSupport.Figure.HeightPixels | bangla_render/mpl_support.py:63-65 | the figure height in pixels (inches times dpi) is zero exactly when the height or the dpi is zero |
| MplSupport.Figure.WidthPixels | bangla_render/mpl_support.py:159-161 | the figure width in pixels (inches times dpi) is zero exactly when the width or the dpi is zero |
| MplSupport.LabelOffset | bangla_render/mpl_support.py:62-69 | the offset minus extra_pad, converted back to pixels, equals the zoomed bitmap extent, so it is at least extra_pad for non-negative inputs |
| MplSupport.LabelOffsetMonotone | bangla_render/mpl_support.py:68-69 | a taller bitmap never gets a smaller offset |
| MplSupport.TitleAnchor | bangla_render/mpl_support.py:71-75 | the title is centred on the axes in x, its y never exceeds 0.99, and y is the axes top plus the offset or else 0.99 |
| MplSupport.TitleClearsAxes | bangla_render/mpl_support.py:67-75 | the clamp is active exactly when the axes top plus the offset reaches 0.99, and otherwise the title is exactly one offset (at least extra_pad) above the axes |
| MplSupport.TitleRisesWithHeight | bangla_render/mpl_support.py:67-75 | a taller title bitmap never lowers the title anchor |
| MplSupport.XLabelAnchor | bangla_render/mpl_support.py:118-122 | the x-label is centred on the axes in x, its y is never below 0, and y is the axes bottom minus the offset or else 0 |
| MplSupport.XLabelBelowAxes | bangla_render/mpl_support.py:114-122 | for axes inside the figure the x-label is never above the axes bottom, is clamped exactly when the offset reaches 0, and otherwise is exactly one offset below |
| MplSupport.XLabelSinksWithHeight | bangla_render/mpl_support.py:114-122 | a taller x-label bitmap never raises the x-label anchor |
| MplSupport.YLabelAnchor | bangla_render/mpl_support.py:164-171 | the y-label sits one offset (on the figure width) left of the axes with no clamp, and is vertically centred on the axes |
| MplSupport.YLabelLeftOfAxes | bangla_render/mpl_support.py:164-171 | for non-negative inputs the y-label anchor is at least extra_pad left of the axes |
| MplSupport.YLabelCanLeaveFigure | bangla_render/mpl_support.py:168-171 | with no clamp the y-label anchor can be negative (−0.08 for a concrete figure) |
| MplSupport.TextZoom | bangla_render/mpl_support.py:211-213 | a given zoom is used as is, and with none the zoom times 24 equals 0.35·fs |
| MplSupport.DefaultZoomProportional | bangla_render/mpl_support.py:211-213 | the default zoom is 0.35 at 24 pt, proportional to the font size and monotone in it |
| MplSupport.HorizontalAlignment | bangla_render/mpl_support.py:218-227 | left gives 0.0 and right gives 1.0 (both if and only if), and any other token gives 0.5 |
| MplSupport.VerticalAlignment | bangla_render/mpl_support.py:219-228 | bottom/baseline give 0.0 and top gives 1.0 (both if and only if), and center, middle and any other token give 0.5 |
| MplSupport.CoordSpace | bangla_render/mpl_support.py:231-237 | "axes" gives axes space and "figure" gives figure space (both if and only if), and every other value gives data space |
| MplSupport.CellCenter | bangla_render/mpl_support.py:269-274 | scaled back to grid units, the centre is half a cell past its column, and half a row past its row counted from the top ("upper") or from the bottom (any other origin) |
| MplSupport.HalfStepInside | bangla_render/mpl_support.py:270 | a half-step grid fraction lies strictly inside its band and inside (0, 1) |
| MplSupport.CellCenterInsideCell | bangla_render/mpl_support.py:269-274 | for a cell inside the grid both coordinates lie strictly in (0,1) and strictly inside the cell's own column and row bands |
| MplSupport.CellOriginsMirror | bangla_render/mpl_support.py:271-274 | the upper and lower origins give the same x, and their y values sum to 1 |
| MplSupport.CellCentersDistinct | bangla_render/mpl_support.py:269-274 | different cells of one grid get different centres |
| MplSupport.FirstCellOfThreeByThree | bangla_render/mpl_support.py:269-274 | cell (0,0) of a 3×3 grid is at (1/6, 5/6) with "upper" and (1/6, 1/6) with "lower" |
| MplSupport.SetBanglaTitle | bangla_render/mpl_support.py:42-86 | appends exactly one figure-space annotation at TitleAnchor, with alignment (0.5, 0.5), zorder 5 and size default 32, then sets only the title to "" |
| MplSupport.SetBanglaXLabel | bangla_render/mpl_support.py:89-133 | appends exactly one figure-space annotation at XLabelAnchor, with alignment (0.5, 1.0), zorder 5 and size default 26, then sets only the x-label to "" |
| MplSupport.SetBanglaYLabel | bangla_render/mpl_support.py:136-182 | appends exactly one rotated figure-space annotation at YLabelAnchor, offset by the unrotated height (the rotated width), with zorder 5, then sets only the y-label to "" |
| MplSupport.BanglaText | bangla_render/mpl_support.py:189-248 | adds exactly one annotation to the axes and returns it, with size default 18, the given or default zoom, the looked-up alignment and coordinate space, and the given zorder |
| MplSupport.AddBanglaInCell | bangla_render/mpl_support.py:251-287 | adds one axes-space annotation at CellCenter, centred both ways, with size default 22 and zorder default 6 |
| MplSupport.SubplotBox | bangla_render/mpl_support.py:308-313 | the box of a 1×1 subplot grid starts at the left and bottom margins and ends at the right and top margins |
| MplSupport.LayoutMovesSubplot | bangla_render/mpl_support.py:294-313 | the default margins give the box (0.125, 0.11, 0.775, 0.77); apply_bangla_layout's defaults give (0.18, 0.22, 0.70, 0.62), so the title is centred at x = 0.53 |
| MplSupport.Figure.constructor | examples/demo_line_plot.py:14 | a new figure has the requested size, no artists, no axes and matplotlib's default margins |
| MplSupport.Figure.AddSubplot | examples/demo_line_plot.py:14 | a new subplot axes belongs to the figure, sits at the box of the current margins with no labels or artists, and is appended to the figure's subplots |
| MplSupport.ApplyBanglaLayout | bangla_render/mpl_support.py:294-313 | sets exactly the four subplot margins given (defaults 0.18, 0.88, 0.22, 0.84), and moves every subplot axes to the box they enclose without touching its labels or artists |
| MplSupport.LabelLinePlot | examples/demo_line_plot.py:14-22 | after the layout the axes sit at the new margin box, and the figure gains exactly three annotations in call order: the 32 pt title at TitleAnchor, the 24 pt x-label at XLabelAnchor and the turned 24 pt y-label at YLabelAnchor, all against that box; the three native labels end blank and the axes' own artists are untouched; every other subplot axes moves to the same box and keeps its labels and artists |

## Left out

- Qt text shaping, font fallback and anti-aliased rasterisation are not modelled. The glyph box is the `metrics` parameter, and a drawn text is recorded as a stroke, not as pixels.
- `_ensure_app` is left out. It is Qt's once-per-process application singleton and holds no layout logic.
- `_qimage_to_rgba_array` is left out. It reshapes a byte buffer and scales it by 1/255. The model's `Bitmap` carries the raster value itself.
- np.rot90 pixel contents are not modelled. Only the orientation and the swapped dimensions are.
- `img.save` (file output) is not modelled as I/O. `RenderText` and `RenderParagraph` return the image that would be written next to the path.
- OffsetImage, AnnotationBbox and matplotlib's transforms are left out. They are the record `Annotation`, which carries the bitmap, zoom, anchor, coordinate space, alignment, frame flag and zorder.
- ApplyBanglaLayout, LabelLinePlot: only a 1×1 subplot grid is modelled, where the axes box is exactly the margin box. Grids with several cells (wspace/hspace), colorbars, layout engines and fixed aspect ratios are not modelled. A fixed aspect (`imshow(..., aspect="equal")`, seaborn's `square=True`) makes `ax.get_position()` return a box narrower than the margin box, so the labels of those axes are not placed against `SubplotBox`. An axes made by its constructor rather than `Figure.AddSubplot` keeps its position.
- ApplyBanglaLayout: matplotlib's ValueError for left ≥ right or bottom ≥ top is the precondition `left < right && bottom < top`.
- SetBanglaTitle, SetBanglaXLabel, SetBanglaYLabel, LabelOffset, TitleAnchor, XLabelAnchor, YLabelAnchor: the precondition that the figure's pixel size is non-zero excludes a zero-size figure. There the code raises nothing: numpy float64 division gives inf or nan with a RuntimeWarning. With a positive zoom the title lands at 0.99, the x-label at 0.0 and the y-label at x = −inf; with zoom 0 the division is 0/0 and every offset is nan. Reals have no infinities, so that case is not modelled.
- Figure.constructor: matplotlib rejects only negative figure sizes, so a zero size is accepted there and reaches the setters as described above.
- Fill, Raster: a fill is recorded as it was called. QColor("transparent") and case variants of a colour name give the same pixels as Qt's transparent colour or the lower-case name, so `Colour("transparent")` and `Transparent` are distinct values for identical pixels.
- AddBanglaInCell and CellCenter: Python's ZeroDivisionError for zero rows or columns is the precondition `rows != 0 && cols != 0`.
- IEEE float rounding is not modelled. All fractions are exact reals.
- Font sizes are integers (QFont point sizes). A float size passed from Python is not modelled.
- Qt turns a QImage with a non-positive width or height into a null image. The model keeps the requested size.
- That a bitmap grows with the font size depends only on Qt's metrics, so it is not stated.
- That re-rendering gives identical files is immediate here: every operation is a deterministic function of its inputs.
- `bangla_render/__init__.py`'s `text` is a pass-through alias of `BanglaText` and has no separate member.
- The demo and test scripts are not modelled, beyond the line-plot call sequence in `LabelLinePlot`.
