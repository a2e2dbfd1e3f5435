/**
 * The rasterisation adapter of bangla_render/renderer.py.
 *
 * Text shaping and anti-aliased drawing belong to Qt and stay abstract here:
 * a font's tight bounding box for a string is a caller-supplied function
 * (`Metrics`, standing for QFontMetrics.boundingRect), and a QImage is an
 * `Image` object that remembers its size, how it was filled and which text
 * strokes were painted on it, in order. What the module does compute is the
 * integer layout around those calls: the tight-crop canvas and draw origin of
 * `render_text_qimage`, the fixed baseline of `render_text` and the inset
 * text rectangle of `render_paragraph`.
 */
module Renderer {

  /** QRect as QFontMetrics.boundingRect reports it: top-left corner and extent. */
  datatype Rect = Rect(left: int, top: int, width: int, height: int)

  /** QFont(family, pointSize). */
  datatype Font = Font(family: string, pointSize: int)

  /** The tight bounding box Qt's shaping engine reports for a string in a font. */
  type Metrics = (Font, string) -> Rect

  /** What QImage.fill was called with: Qt's transparent colour or a colour name, as given. */
  datatype Fill = Transparent | Colour(name: string)

  /** A freshly constructed QImage has undefined pixels until it is filled. */
  datatype Paint = Unfilled | Filled(fill: Fill)

  /** One QPainter.drawText call, with the font and pen in effect. */
  datatype Stroke =
    | TextAtBaseline(x: int, y: int, font: Font, pen: string, text: string)
    | TextInRect(rect: Rect, flags: bv32, font: Font, pen: string, text: string)

  /**
   * The value an Image holds at one moment: its size, what fill was called
   * with and the strokes drawn since. Two different fills may give the same
   * pixels (Qt reads the colour name "transparent" as Qt's transparent).
   */
  datatype Raster = Raster(width: int, height: int, paint: Paint, strokes: seq<Stroke>)

  const DefaultFamily: string := "Noto Sans Bengali"
  const DefaultPadding: int := 10

  /** Qt::AlignLeft, Qt::AlignTop and Qt::TextWordWrap. */
  const AlignLeft: bv32 := 0x0001
  const AlignTop: bv32 := 0x0020
  const TextWordWrap: bv32 := 0x1000

  /** render_text starts every line this many pixels from the left edge. */
  const TextLeft: int := 10

  /** A QImage: a canvas of fixed size that fill and drawText change in place. */
  class Image {
    var width: int
    var height: int
    var paint: Paint
    var strokes: seq<Stroke>

    /** The image's current value. */
    function Snapshot(): Raster
      reads this
    {
      Raster(width, height, paint, strokes)
    }

    /** QImage(width, height, Format_ARGB32). */
    constructor (w: int, h: int)
      ensures Snapshot() == Raster(w, h, Unfilled, [])
    {
      width, height := w, h;
      paint, strokes := Unfilled, [];
    }

    /** QImage.fill: every pixel is overwritten, so earlier strokes are gone. */
    method Fill(f: Fill)
      modifies this`paint, this`strokes
      ensures Snapshot() == Raster(old(width), old(height), Filled(f), [])
    {
      paint, strokes := Filled(f), [];
    }

    /** QPainter.drawText on this image: paints over what is already there. */
    method DrawText(s: Stroke)
      modifies this`strokes
      ensures Snapshot() == old(Snapshot()).(strokes := old(strokes) + [s])
    {
      strokes := strokes + [s];
    }
  }

  // ---------------------------------------------------------------------------
  // render_text_qimage: tight crop
  // ---------------------------------------------------------------------------

  /**
   * Canvas size of the tight crop: the glyph box plus `padding` pixels of
   * slack on both sides of each axis, and nothing else.
   */
  function CanvasSize(box: Rect, padding: int): (size: (int, int))
    ensures size.0 - box.width == 2 * padding
    ensures size.1 - box.height == 2 * padding
  {
    (box.width + 2 * padding, box.height + 2 * padding)
  }

  /**
   * Point passed to drawText for the tight crop. It compensates for glyph boxes
   * whose origin is offset from the pen position (descenders, combining marks),
   * so the box's top-left corner lands at (padding, padding) and its
   * bottom-right corner `padding` pixels short of the canvas's far edges.
   */
  function DrawOrigin(box: Rect, padding: int): (origin: (int, int))
    ensures origin.0 + box.left == padding && origin.1 + box.top == padding
    ensures CanvasSize(box, padding).0 - (origin.0 + box.left + box.width) == padding
    ensures CanvasSize(box, padding).1 - (origin.1 + box.top + box.height) == padding
  {
    (padding - box.left, padding - box.top)
  }

  /** The image render_text_qimage returns, as a value. */
  function TightCrop(metrics: Metrics, text: string, font: Font, color: string, padding: int): (r: Raster)
    ensures var box := metrics(font, text);
      && r.width - box.width == 2 * padding && r.height - box.height == 2 * padding
    ensures r.paint == Filled(Transparent) && |r.strokes| == 1
    ensures var box, s := metrics(font, text), r.strokes[0];
      && s.TextAtBaseline? && s.font == font && s.pen == color && s.text == text
      && s.x + box.left == padding && s.y + box.top == padding
  {
    var box := metrics(font, text);
    var size := CanvasSize(box, padding);
    var origin := DrawOrigin(box, padding);
    Raster(size.0, size.1, Filled(Transparent), [TextAtBaseline(origin.0, origin.1, font, color, text)])
  }

  /**
   * The glyph box, moved to where drawText puts it, lies inside the canvas with
   * exactly `padding` pixels to spare on every side, and the canvas size
   * depends on the box's extent only, never on its offset.
   */
  lemma TightCropFitsGlyphBox(metrics: Metrics, text: string, font: Font, color: string, padding: int)
    requires padding >= 0
    requires metrics(font, text).width >= 0 && metrics(font, text).height >= 0
    ensures var box, r := metrics(font, text), TightCrop(metrics, text, font, color, padding);
      var s := r.strokes[0];
      && |r.strokes| == 1 && s.TextAtBaseline?
      && r.width == box.width + 2 * padding && r.height == box.height + 2 * padding
      && 0 <= s.x + box.left == padding && s.x + box.left + box.width + padding == r.width
      && 0 <= s.y + box.top == padding && s.y + box.top + box.height + padding == r.height
      && box.width <= r.width && box.height <= r.height
  {
  }

  /**
   * render_text_qimage: shape `text` with a tight bounding box, allocate a
   * canvas exactly that size plus padding, fill it transparent whatever the
   * colour, and draw the text at the compensated origin.
   */
  method RenderTextQImage(metrics: Metrics, text: string, fontFamily: string := DefaultFamily,
                          fontSize: int := 48, color: string := "black", padding: int := DefaultPadding)
    returns (img: Image)
    ensures fresh(img)
    ensures img.Snapshot() == TightCrop(metrics, text, Font(fontFamily, fontSize), color, padding)
  {
    var font := Font(fontFamily, fontSize);
    var rect := metrics(font, text);
    var w := rect.width + 2 * padding;
    var h := rect.height + 2 * padding;
    img := new Image(w, h);
    img.Fill(Transparent);
    var x := padding - rect.left;
    var y := padding - rect.top;
    img.DrawText(TextAtBaseline(x, y, font, color, text));
  }

  // ---------------------------------------------------------------------------
  // render_text: fixed canvas, one line
  // ---------------------------------------------------------------------------

  /** render_text's background: Qt's transparent for "transparent", else the named colour. */
  function Background(bg: string): (f: Fill)
    ensures f == Transparent <==> bg == "transparent"
    ensures f.Colour? ==> f.name == bg
  {
    if bg == "transparent" then Transparent else Colour(bg)
  }

  /** `q` is Python's `a // 2`: the floor of a half, negative `a` included. */
  ghost predicate IsFloorHalf(a: int, q: int)
  {
    2 * q <= a < 2 * q + 2
  }

  /**
   * render_text's baseline y: `height // 2 + font_size // 2 - 5`, both halves
   * rounded down. Twice the baseline is within two pixels of
   * `height + font_size - 10`, so the text sits roughly at the vertical centre.
   */
  function Baseline(height: int, fontSize: int): (y: int)
    ensures forall qh, qf :: IsFloorHalf(height, qh) && IsFloorHalf(fontSize, qf) ==> y == qh + qf - 5
    ensures height + fontSize - 12 <= 2 * y <= height + fontSize - 10
  {
    height / 2 + fontSize / 2 - 5
  }

  /**
   * render_text: a width x height canvas, filled according to `bg`, with the
   * text drawn once at (10, Baseline). Returns `outputPath` and the image that
   * is saved there.
   */
  method RenderText(text: string, width: int := 800, height: int := 200,
                    fontFamily: string := DefaultFamily, fontSize: int := 48,
                    outputPath: string := "bangla_text.png", color: string := "black",
                    bg: string := "white")
    returns (path: string, saved: Image)
    ensures path == outputPath
    ensures fresh(saved)
    ensures saved.Snapshot() == Raster(width, height, Filled(Background(bg)),
      [TextAtBaseline(TextLeft, Baseline(height, fontSize), Font(fontFamily, fontSize), color, text)])
  {
    saved := new Image(width, height);
    if bg == "transparent" {
      saved.Fill(Transparent);
    } else {
      saved.Fill(Colour(bg));
    }
    var font := Font(fontFamily, fontSize);
    var x := TextLeft;
    var y := height / 2 + fontSize / 2 - 5;
    saved.DrawText(TextAtBaseline(x, y, font, color, text));
    path := outputPath;
  }

  // ---------------------------------------------------------------------------
  // render_paragraph: fixed canvas, word-wrapped block
  // ---------------------------------------------------------------------------

  /**
   * render_paragraph's text rectangle: the canvas shrunk by `margin` on all
   * four sides.
   */
  function InsetRect(width: int, height: int, margin: int): (r: Rect)
    ensures r.left == margin && r.top == margin
    ensures width - (r.left + r.width) == margin
    ensures height - (r.top + r.height) == margin
  {
    Rect(margin, margin, width - 2 * margin, height - 2 * margin)
  }

  /**
   * Flags passed to drawText: word wrap is always on and every alignment bit
   * the caller asked for is kept.
   */
  function ParagraphFlags(align: bv32): (flags: bv32)
    ensures flags & TextWordWrap == TextWordWrap
    ensures flags & align == align
  {
    TextWordWrap | align
  }

  /** ParagraphFlags sets no bit beyond word wrap and the requested alignment. */
  lemma ParagraphFlagsAddNothingElse(align: bv32)
    ensures ParagraphFlags(align) & !(align | TextWordWrap) == 0
  {
  }

  /**
   * render_paragraph: a width x height canvas always filled with the colour
   * named by `bg` (no transparent special case), and the text drawn word-wrapped
   * into the inset rectangle. Returns `outputPath` and the image saved there.
   */
  method RenderParagraph(text: string, width: int := 800, height: int := 300,
                         fontFamily: string := DefaultFamily, fontSize: int := 28,
                         outputPath: string := "bangla_paragraph.png",
                         align: bv32 := AlignLeft | AlignTop, color: string := "black",
                         bg: string := "white", margin: int := 40)
    returns (path: string, saved: Image)
    ensures path == outputPath
    ensures fresh(saved)
    ensures saved.Snapshot() == Raster(width, height, Filled(Colour(bg)),
      [TextInRect(InsetRect(width, height, margin), ParagraphFlags(align), Font(fontFamily, fontSize), color, text)])
  {
    saved := new Image(width, height);
    saved.Fill(Colour(bg));
    var font := Font(fontFamily, fontSize);
    var rect := Rect(margin, margin, width - 2 * margin, height - 2 * margin);
    var flags := TextWordWrap | align;
    saved.DrawText(TextInRect(rect, flags, font, color, text));
    path := outputPath;
  }
}
