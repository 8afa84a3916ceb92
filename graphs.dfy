/**
 * createBarGraph: one row per entry painted onto a single canvas (the entry's name in a box,
 * its image in a box, a bar proportional to its value and the value as text), then an optional
 * title and subtitle stacked above it and a background filled behind the whole.
 */
module Graphs {
  import opened JsMath
  import opened Raster
  import opened Util
  import opened Text

  /** GraphPalette: the colours a graph paints with. */
  datatype Palette = Palette(background: Style, padding: Style, lightPadding: Style, darkPadding: Style,
                             highlight: Style, text: Style)

  /** DEFAULT_GRAPH_PALETTE, the Discord colours. */
  const DefaultPalette := Palette(Color("#36393e"), Color("#282b30"), Color("#424549"), Color("#1e2124"),
                                  Color("#7289da"), Color("white"))

  /** An entry; `image` is what loading its imageUrl gave, None when the load threw. */
  datatype Entry = Entry(name: string, value: int, image: Option<Surface>)

  datatype GraphOptions = GraphOptions(showNames: Option<bool>, title: Option<string>, subtitle: Option<string>,
                                       rowHeight: Option<real>, width: Option<real>, palette: Option<Palette>)

  /** MARGIN: between elements and around the edge of the canvas. */
  const Margin := 8.0
  /** PADDING: within boxes. */
  const Padding := 4.0

  function RowHeight(o: GraphOptions): real
  {
    o.rowHeight.GetOr(40.0)
  }

  function GraphWidth(o: GraphOptions): real
  {
    o.width.GetOr(480.0)
  }

  function ShowNames(o: GraphOptions): bool
  {
    o.showNames.GetOr(true)
  }

  function PaletteOf(o: GraphOptions): Palette
  {
    o.palette.GetOr(DefaultPalette)
  }

  /** `${Math.floor(ROW_HEIGHT * 0.6)}px sans-serif`, the font of every text in the rows. */
  function GraphFont(o: GraphOptions): Font
  {
    SansSerif(Floor(RowHeight(o) * 0.6) as real)
  }

  /** HEIGHT: n rows with a margin above, between and below them. */
  function GraphHeight(n: nat, rowHeight: real): real
  {
    n as real * rowHeight + (n + 1) as real * Margin
  }

  /** baseY of row i: the first margin, then a row and a margin per row before it. */
  function RowTop(o: GraphOptions, i: nat): real
  {
    Margin + Times(i, RowHeight(o) + Margin)
  }

  /** Math.max(...values), for a non-empty list. */
  function MaxValue(entries: seq<Entry>): (r: int)
    requires |entries| > 0
    ensures forall i :: 0 <= i < |entries| ==> entries[i].value <= r
    ensures exists i :: 0 <= i < |entries| && entries[i].value == r
  {
    if |entries| == 1 then entries[0].value
    else
      var front := MaxValue(entries[..|entries| - 1]);
      var last := entries[|entries| - 1].value;
      if last > front then last else front
  }

  /** A bar width is a quotient by the largest value, which must not be zero. */
  predicate GraphReady(entries: seq<Entry>)
  {
    |entries| > 0 ==> MaxValue(entries) != 0
  }

  // ---------------------------------------------------------------------------
  // One row

  /** Where the image box starts: past the name box and a margin when names are shown. */
  function ImageStart(o: GraphOptions): real
  {
    Margin + (if ShowNames(o) then RowHeight(o) * 2.0 + Margin else 0.0)
  }

  /** Where every bar starts: past the image box and a margin. */
  function BarStart(o: GraphOptions): real
  {
    ImageStart(o) + RowHeight(o) + Margin
  }

  /** MAX_BAR_WIDTH: what is left of the width after the bar start and a margin. */
  function MaxBarWidth(o: GraphOptions): real
  {
    GraphWidth(o) - BarStart(o) - Margin
  }

  /** Math.floor(MAX_BAR_WIDTH * value / maxEntryValue) */
  function BarWidth(o: GraphOptions, value: int, maxValue: int): int
    requires maxValue != 0
  {
    FloorShare(MaxBarWidth(o), value, maxValue)
  }

  /** The name box and the name, clipped to the box less its padding; nothing when names are hidden. */
  function NameOps(o: GraphOptions, entry: Entry, top: real): seq<Op>
  {
    var rh := RowHeight(o);
    if ShowNames(o) then
      [FillRect(PaletteOf(o).padding, Margin, top, rh * 2.0, rh),
       FillText(entry.name, GraphFont(o), PaletteOf(o).text, 1.0, Margin + Padding, top + 0.75 * rh, Some((rh - Padding) * 2.0))]
    else []
  }

  /** The image box, and the image inside its padding when it was loaded. */
  function IconOps(o: GraphOptions, entry: Entry, top: real): seq<Op>
  {
    var rh := RowHeight(o);
    var x := ImageStart(o);
    [FillRect(PaletteOf(o).padding, x, top, rh, rh)]
    + match entry.image
      case None => []
      case Some(image) => [DrawScaled(image, x + Padding, top + Padding, rh - 2.0 * Padding, rh - 2.0 * Padding)]
  }

  /** The bar, and its highlight inside its padding when the bar is wider than two paddings. */
  function BarOps(o: GraphOptions, barWidth: real, top: real): seq<Op>
  {
    var rh := RowHeight(o);
    var x := BarStart(o);
    [FillRect(PaletteOf(o).padding, x, top, barWidth, rh)]
    + if barWidth > Padding * 2.0
      then [FillRect(PaletteOf(o).highlight, x + Padding, top + Padding, barWidth - 2.0 * Padding, rh - 2.0 * Padding)]
      else []
  }

  /** The value's text: inside the bar's end when it fits with room to spare, else past the bar. */
  function ValueOp(m: Metrics, o: GraphOptions, value: int, barWidth: real, top: real): Op
  {
    var text := IntToString(value);
    var textWidth := m.width(text, GraphFont(o));
    var x := if textWidth + 4.0 * Padding < barWidth then BarStart(o) + barWidth - textWidth - 2.0 * Padding
             else BarStart(o) + barWidth + Margin;
    FillText(text, GraphFont(o), PaletteOf(o).text, 1.0, x, top + 0.75 * RowHeight(o), None)
  }

  /** Everything one pass of the row loop paints for an entry whose row starts at `top`. */
  function RowOps(m: Metrics, o: GraphOptions, entry: Entry, top: real, maxValue: int): seq<Op>
    requires maxValue != 0
  {
    var barWidth := BarWidth(o, entry.value, maxValue) as real;
    NameOps(o, entry, top) + IconOps(o, entry, top) + BarOps(o, barWidth, top) + [ValueOp(m, o, entry.value, barWidth, top)]
  }

  /** The paint log of the graph canvas after the first k rows. */
  function GraphOps(m: Metrics, o: GraphOptions, entries: seq<Entry>, k: nat): seq<Op>
    requires GraphReady(entries) && k <= |entries|
  {
    if k == 0 then []
    else GraphOps(m, o, entries, k - 1) + RowOps(m, o, entries[k - 1], RowTop(o, k - 1), MaxValue(entries))
  }

  /** The graph canvas: WIDTH x HEIGHT, every row painted. */
  function GraphSurface(m: Metrics, entries: seq<Entry>, o: GraphOptions): Surface
    requires GraphReady(entries)
  {
    Surface(GraphWidth(o), GraphHeight(|entries|, RowHeight(o)), GraphOps(m, o, entries, |entries|))
  }

  /** One pass of the row loop: the name, the image, the bar and the value of one entry. */
  method PaintRow(c: Canvas, m: Metrics, o: GraphOptions, entry: Entry, baseY: real, maxValue: int)
    requires maxValue != 0
    modifies c
    ensures c.paint == old(c.paint) + RowOps(m, o, entry, baseY, maxValue)
  {
    var baseX := Margin;
    if ShowNames(o) {
      PaintName(c, o, entry, baseY);
      baseX := baseX + RowHeight(o) * 2.0 + Margin;
    } else {
      assert NameOps(o, entry, baseY) == [];
    }
    PaintIcon(c, o, entry, baseX, baseY);
    baseX := baseX + RowHeight(o) + Margin;
    var barWidth := BarWidth(o, entry.value, maxValue) as real;
    PaintBar(c, o, baseX, barWidth, baseY);
    PaintValue(c, m, o, entry.value, baseX, barWidth, baseY);
    assert c.paint == old(c.paint) + NameOps(o, entry, baseY) + IconOps(o, entry, baseY) + BarOps(o, barWidth, baseY)
                      + [ValueOp(m, o, entry.value, barWidth, baseY)];
  }

  /** The name box at the left margin, and the name inside it. */
  method PaintName(c: Canvas, o: GraphOptions, entry: Entry, baseY: real)
    requires ShowNames(o)
    modifies c
    ensures c.paint == old(c.paint) + NameOps(o, entry, baseY)
  {
    var rh := RowHeight(o);
    c.Paint(FillRect(PaletteOf(o).padding, Margin, baseY, rh * 2.0, rh));
    c.Paint(FillText(entry.name, GraphFont(o), PaletteOf(o).text, 1.0, Margin + Padding, baseY + 0.75 * rh, Some((rh - Padding) * 2.0)));
  }

  /** The image box at baseX, and the image inside it when it was loaded. */
  method PaintIcon(c: Canvas, o: GraphOptions, entry: Entry, baseX: real, baseY: real)
    requires baseX == ImageStart(o)
    modifies c
    ensures c.paint == old(c.paint) + IconOps(o, entry, baseY)
  {
    var rh := RowHeight(o);
    c.Paint(FillRect(PaletteOf(o).padding, baseX, baseY, rh, rh));
    if entry.image.Some? {
      c.Paint(DrawScaled(entry.image.value, baseX + Padding, baseY + Padding, rh - 2.0 * Padding, rh - 2.0 * Padding));
    }
  }

  /** The bar at baseX, and its highlight when it is wider than two paddings. */
  method PaintBar(c: Canvas, o: GraphOptions, baseX: real, barWidth: real, baseY: real)
    requires baseX == BarStart(o)
    modifies c
    ensures c.paint == old(c.paint) + BarOps(o, barWidth, baseY)
  {
    var rh := RowHeight(o);
    c.Paint(FillRect(PaletteOf(o).padding, baseX, baseY, barWidth, rh));
    if barWidth > Padding * 2.0 {
      c.Paint(FillRect(PaletteOf(o).highlight, baseX + Padding, baseY + Padding, barWidth - 2.0 * Padding, rh - 2.0 * Padding));
    }
  }

  /** The value, measured in the graph font, written inside the bar's end or past it. */
  method PaintValue(c: Canvas, m: Metrics, o: GraphOptions, value: int, baseX: real, barWidth: real, baseY: real)
    requires baseX == BarStart(o)
    modifies c
    ensures c.paint == old(c.paint) + [ValueOp(m, o, value, barWidth, baseY)]
  {
    var font := GraphFont(o);
    var valueText := IntToString(value);
    var valueTextWidth := m.width(valueText, font);
    if valueTextWidth + 4.0 * Padding < barWidth {
      c.Paint(FillText(valueText, font, PaletteOf(o).text, 1.0, baseX + barWidth - valueTextWidth - 2.0 * Padding, baseY + 0.75 * RowHeight(o), None));
    } else {
      c.Paint(FillText(valueText, font, PaletteOf(o).text, 1.0, baseX + barWidth + Margin, baseY + 0.75 * RowHeight(o), None));
    }
  }

  // ---------------------------------------------------------------------------
  // Title, subtitle and assembly

  /** `if (options?.title)`: given and not empty. */
  predicate Given(s: Option<string>)
  {
    s.Some? && s.value != ""
  }

  /** The options the headings are evidently meant to get: WIDTH wide, centred in the palette's text style within MARGIN. */
  function HeadingOptions(o: GraphOptions, height: real): LabelOptions
  {
    LabelOptions(Some(GraphWidth(o)), Some(height), Some(AlignCenter), None, Some(PaletteOf(o).text), None, Some(Margin))
  }

  /** A title (ROW_HEIGHT tall) or subtitle (Math.round(ROW_HEIGHT * 0.66) tall) label, as evidently intended. */
  function Heading(m: Metrics, o: GraphOptions, text: string, height: real): Surface
    requires text != ""
  {
    GetTextLabel(m, text, HeadingOptions(o, height)).value
  }

  function SubtitleHeight(o: GraphOptions): real
  {
    Round(RowHeight(o) * 0.66) as real
  }

  /**
   * A heading as createBarGraph builds it: its WIDTH, height and style land in getTextLabel's
   * `options` parameter as a bare number, so the label gets every default.
   */
  function HeadingAsWritten(m: Metrics, text: string): (s: Surface)
    requires text != ""
    ensures s.height == 20.0 && s.width == m.width(text, SansSerif(12.0))
    ensures |s.paint| == 2 && s.paint[0].FillText? && s.paint[0].style == Color("white")
    ensures s.paint[0].x == 0.0 && s.paint[0].maxWidth.None?
  {
    LabelFitsText(m, text, NoLabelOptions);
    GetTextLabel(m, text, NoLabelOptions).value
  }

  /** The width of a heading as written: its text measured in the 12px default font, 0 when not given. */
  function HeadingWidth(m: Metrics, s: Option<string>): real
  {
    if Given(s) then m.width(s.value, SansSerif(12.0)) else 0.0
  }

  /** A heading that is not given, or whose text measures a positive width, survives the vertical join. */
  predicate HeadingFits(m: Metrics, s: Option<string>)
  {
    Given(s) ==> HeadingWidth(m, s) > 0.0
  }

  function TitlePart(m: Metrics, o: GraphOptions): seq<Surface>
  {
    if Given(o.title) then [HeadingAsWritten(m, o.title.value)] else []
  }

  function SubtitlePart(m: Metrics, o: GraphOptions): seq<Surface>
  {
    if Given(o.subtitle) then [HeadingAsWritten(m, o.subtitle.value)] else []
  }

  /** The title, then the subtitle, each only when given, as createBarGraph builds them. */
  function Headings(m: Metrics, o: GraphOptions): seq<Surface>
  {
    TitlePart(m, o) + SubtitlePart(m, o)
  }

  /** The title, then the subtitle, each only when given, as evidently intended. */
  function IntendedHeadings(m: Metrics, o: GraphOptions): seq<Surface>
  {
    (if Given(o.title) then [Heading(m, o, o.title.value, RowHeight(o))] else [])
    + (if Given(o.subtitle) then [Heading(m, o, o.subtitle.value, SubtitleHeight(o))] else [])
  }

  /** fillBackground(joinCanvasesVertical(parts), PALETTE): the parts stacked and filled with the palette's background. */
  function FilledStack(parts: seq<Surface>, o: GraphOptions): Result<Surface>
  {
    JoinPlainModes(parts, Vertical, VerticalDefaults);
    match JoinSpec(parts, Vertical, VerticalDefaults)
    case Failure(e) => Failure(e)
    case Success(joined) => Success(FillBackground(joined, PaletteOf(o).background))
  }

  /** The headings and the graph, stacked and filled with the palette's background, as createBarGraph does it. */
  function BarGraphSpec(m: Metrics, entries: seq<Entry>, o: GraphOptions): Result<Surface>
    requires GraphReady(entries)
  {
    FilledStack(Headings(m, o) + [GraphSurface(m, entries, o)], o)
  }

  /** The same assembly with the headings as evidently intended. */
  function BarGraphIntended(m: Metrics, entries: seq<Entry>, o: GraphOptions): Result<Surface>
    requires GraphReady(entries)
  {
    FilledStack(IntendedHeadings(m, o) + [GraphSurface(m, entries, o)], o)
  }

  /** createBarGraph */
  method CreateBarGraph(m: Metrics, entries: seq<Entry>, o: GraphOptions) returns (r: Result<Surface>)
    requires GraphReady(entries)
    ensures r == BarGraphSpec(m, entries, o)
  {
    var graph := PaintGraph(m, entries, o);
    var canvases := AddHeadings(m, o);
    canvases := canvases + [graph];
    assert TargetCross(canvases, Vertical, VerticalDefaults.align) == None;
    var joined := Join(canvases, Vertical, VerticalDefaults);
    if joined.Failure? {
      return Failure(joined.error);
    }
    r := Success(FillBackground(joined.value, PaletteOf(o).background));
  }

  /**
   * The title, then the subtitle, pushed onto an empty list when given. Each call passes WIDTH
   * where getTextLabel takes its options, so each label is made with no options at all.
   */
  method AddHeadings(m: Metrics, o: GraphOptions) returns (canvases: seq<Surface>)
    ensures canvases == Headings(m, o)
  {
    canvases := [];
    if o.title.Some? && o.title.value != "" {
      var heading := GetTextLabel(m, o.title.value, NoLabelOptions);
      canvases := canvases + [heading.value];
    }
    assert canvases == TitlePart(m, o);
    if o.subtitle.Some? && o.subtitle.value != "" {
      var heading := GetTextLabel(m, o.subtitle.value, NoLabelOptions);
      canvases := canvases + [heading.value];
    } else {
      assert SubtitlePart(m, o) == [];
    }
  }

  /** The row loop of createBarGraph: a WIDTH x HEIGHT canvas, one row painted per entry. */
  method PaintGraph(m: Metrics, entries: seq<Entry>, o: GraphOptions) returns (graph: Surface)
    requires GraphReady(entries)
    ensures graph == GraphSurface(m, entries, o)
  {
    var rh := RowHeight(o);
    var c := new Canvas(GraphWidth(o), GraphHeight(|entries|, rh));
    // Math.max() of no values is -Infinity, which no row reads; 0 stands in for it.
    var maxValue := if |entries| == 0 then 0 else MaxValue(entries);
    var baseY := Margin;
    for i := 0 to |entries|
      invariant c.paint == GraphOps(m, o, entries, i)
      invariant baseY == RowTop(o, i)
    {
      PaintRow(c, m, o, entries[i], baseY, maxValue);
      baseY := baseY + rh + Margin;
    }
    graph := c.Snapshot();
  }

  // ---------------------------------------------------------------------------
  // Geometry of the rows

  /** Row i starts a margin, then i rows each followed by a margin, below the top. */
  lemma RowTopIs(o: GraphOptions, i: nat)
    ensures RowTop(o, i) == Margin + i as real * (RowHeight(o) + Margin)
  {
    TimesIsProduct(i, RowHeight(o) + Margin);
  }

  /** The last row ends one margin above the bottom of the canvas: HEIGHT fits the rows exactly. */
  lemma LastRowEnds(o: GraphOptions, n: nat)
    requires n > 0
    ensures RowTop(o, n - 1) + RowHeight(o) + Margin == GraphHeight(n, RowHeight(o))
  {
    RowTopIs(o, n - 1);
    var rh := RowHeight(o);
    var k := (n - 1) as real;
    assert k * (rh + Margin) == k * rh + k * Margin;
    assert n as real == k + 1.0;
  }

  /** A non-negative value up to the largest gets a bar from zero to MAX_BAR_WIDTH; the largest gets it all. */
  lemma BarWidthBounds(o: GraphOptions, value: int, maxValue: int)
    requires 0 <= value <= maxValue && maxValue > 0 && MaxBarWidth(o) >= 0.0
    ensures var w := BarWidth(o, value, maxValue) as real;
            0.0 <= w <= MaxBarWidth(o) && BarStart(o) + w <= GraphWidth(o) - Margin
    ensures value == maxValue ==> BarWidth(o, value, maxValue) == Floor(MaxBarWidth(o))
  {
    FloorShareBounds(MaxBarWidth(o), value, maxValue);
  }

  /** A larger value never gets a shorter bar. */
  lemma BarWidthMonotone(o: GraphOptions, small: int, large: int, maxValue: int)
    requires small <= large && maxValue > 0 && MaxBarWidth(o) >= 0.0
    ensures BarWidth(o, small, maxValue) <= BarWidth(o, large, maxValue)
  {
    FloorShareMonotone(MaxBarWidth(o), small, large, maxValue);
  }

  /** Some entry, one with the largest value, has the longest possible bar. */
  lemma LongestBar(o: GraphOptions, entries: seq<Entry>)
    requires |entries| > 0 && MaxValue(entries) > 0 && MaxBarWidth(o) >= 0.0
    ensures exists i :: 0 <= i < |entries| && BarWidth(o, entries[i].value, MaxValue(entries)) == Floor(MaxBarWidth(o))
  {
    var i :| 0 <= i < |entries| && entries[i].value == MaxValue(entries);
    BarWidthBounds(o, entries[i].value, MaxValue(entries));
  }

  /** The image is drawn into the box, inside its padding, exactly when it loaded; otherwise the box stays empty. */
  lemma IconDrawnIffLoaded(o: GraphOptions, entry: Entry, top: real)
    ensures var ops := IconOps(o, entry, top);
            && (|ops| == 2 <==> entry.image.Some?) && (entry.image.None? ==> |ops| == 1)
            && ops[0].FillRect? && ops[0].x == ImageStart(o) && ops[0].w == RowHeight(o)
            && (|ops| == 2 ==>
                  && ops[1] == DrawScaled(entry.image.value, ops[0].x + Padding, ops[0].y + Padding,
                                          ops[0].w - 2.0 * Padding, ops[0].h - 2.0 * Padding))
  {
  }

  /** The highlight is painted exactly when the bar is wider than two paddings, and then inside the bar. */
  lemma HighlightInsideBar(o: GraphOptions, barWidth: real, top: real)
    ensures var ops := BarOps(o, barWidth, top);
            && (|ops| == 2 <==> barWidth > 2.0 * Padding)
            && ops[0] == FillRect(PaletteOf(o).padding, BarStart(o), top, barWidth, RowHeight(o))
            && (|ops| == 2 ==>
                  && ops[1].FillRect? && ops[1].style == PaletteOf(o).highlight
                  && ops[0].x < ops[1].x && ops[1].x + ops[1].w < ops[0].x + ops[0].w
                  && ops[1].y + ops[1].h == ops[0].y + ops[0].h - Padding)
  {
  }

  /**
   * The value is written in the bar's end, two paddings from either end of the bar, when it is
   * narrower than the bar by four paddings; otherwise it starts a margin past the end of the bar.
   */
  lemma ValuePlacement(m: Metrics, o: GraphOptions, value: int, barWidth: real, top: real)
    ensures var op := ValueOp(m, o, value, barWidth, top);
            var textWidth := m.width(IntToString(value), GraphFont(o));
            && op.FillText? && op.text == IntToString(value) && op.font == GraphFont(o) && op.maxWidth.None?
            && (textWidth + 4.0 * Padding < barWidth ==>
                  && op.x + textWidth + 2.0 * Padding == BarStart(o) + barWidth
                  && op.x > BarStart(o) + 2.0 * Padding)
            && (textWidth + 4.0 * Padding >= barWidth ==> op.x == BarStart(o) + barWidth + Margin)
  {
  }

  /** The vertical extent of what an operation paints lies between lo and hi. */
  predicate InBand(op: Op, lo: real, hi: real)
  {
    match op
    case FillRect(_, _, y, _, h) => lo <= y && y + h <= hi
    case DrawScaled(_, _, y, _, h) => lo <= y && y + h <= hi
    case FillText(_, _, _, _, _, y, _) => lo <= y <= hi
    case _ => false
  }

  /** Everything in a paint log lies between lo and hi. */
  predicate AllInBand(ops: seq<Op>, lo: real, hi: real)
  {
    forall i :: 0 <= i < |ops| ==> InBand(ops[i], lo, hi)
  }

  /** Everything a row paints lies within the row's own band, from its top down ROW_HEIGHT. */
  lemma RowInBand(m: Metrics, o: GraphOptions, entry: Entry, top: real, maxValue: int)
    requires maxValue != 0 && RowHeight(o) >= 0.0
    ensures AllInBand(RowOps(m, o, entry, top, maxValue), top, top + RowHeight(o))
  {
    var bw := BarWidth(o, entry.value, maxValue) as real;
    var parts := [NameOps(o, entry, top), IconOps(o, entry, top), BarOps(o, bw, top), [ValueOp(m, o, entry.value, bw, top)]];
    var ops := RowOps(m, o, entry, top, maxValue);
    assert ops == parts[0] + parts[1] + parts[2] + parts[3];
    forall i | 0 <= i < |ops|
      ensures InBand(ops[i], top, top + RowHeight(o))
    {
      if i < |parts[0]| {
        assert ops[i] == parts[0][i];
      } else if i < |parts[0]| + |parts[1]| {
        assert ops[i] == parts[1][i - |parts[0]|];
      } else if i < |parts[0]| + |parts[1]| + |parts[2]| {
        assert ops[i] == parts[2][i - |parts[0]| - |parts[1]|];
      } else {
        assert ops[i] == parts[3][0];
      }
    }
  }

  /** A row under a log that ends a margin above the row's top makes a log from the same top to the row's bottom. */
  lemma StackBands(before: seq<Op>, row: seq<Op>, lo: real, top: real, height: real)
    requires AllInBand(before, lo, top - Margin) && AllInBand(row, top, top + height)
    requires lo <= top && height >= 0.0
    ensures AllInBand(before + row, lo, top + height)
  {
    forall i | 0 <= i < |before + row|
      ensures InBand((before + row)[i], lo, top + height)
    {
      if i < |before| {
        assert (before + row)[i] == before[i];
        assert InBand(before[i], lo, top - Margin);
      } else {
        assert (before + row)[i] == row[i - |before|];
        assert InBand(row[i - |before|], top, top + height);
      }
    }
  }

  /** One more row under a log that ends a margin above it. */
  lemma StackRow(before: seq<Op>, m: Metrics, o: GraphOptions, entry: Entry, top: real, maxValue: int)
    requires maxValue != 0 && RowHeight(o) >= 0.0 && Margin <= top
    requires AllInBand(before, Margin, top - Margin)
    ensures AllInBand(before + RowOps(m, o, entry, top, maxValue), Margin, top + RowHeight(o))
  {
    RowInBand(m, o, entry, top, maxValue);
    StackBands(before, RowOps(m, o, entry, top, maxValue), Margin, top, RowHeight(o));
  }

  /** The first k rows paint between the top margin and the margin below row k - 1: rows never overlap. */
  lemma {:induction false} RowsInBand(m: Metrics, o: GraphOptions, entries: seq<Entry>, k: nat)
    requires GraphReady(entries) && k <= |entries| && RowHeight(o) >= 0.0
    ensures AllInBand(GraphOps(m, o, entries, k), Margin, RowTop(o, k) - Margin)
    decreases k, 1
  {
    if k > 0 {
      NextRowInBand(m, o, entries, k);
    }
  }

  /** Row k - 1 keeps the band property of the rows above it. */
  lemma {:induction false} NextRowInBand(m: Metrics, o: GraphOptions, entries: seq<Entry>, k: nat)
    requires GraphReady(entries) && 0 < k <= |entries| && RowHeight(o) >= 0.0
    ensures AllInBand(GraphOps(m, o, entries, k), Margin, RowTop(o, k) - Margin)
    decreases k, 0
  {
    RowsInBand(m, o, entries, k - 1);
    RowTopStep(o, k);
    var row := RowOps(m, o, entries[k - 1], RowTop(o, k - 1), MaxValue(entries));
    StackRow(GraphOps(m, o, entries, k - 1), m, o, entries[k - 1], RowTop(o, k - 1), MaxValue(entries));
    assert GraphOps(m, o, entries, k) == GraphOps(m, o, entries, k - 1) + row;
  }

  /** Row k - 1 starts at or below the top margin and ends a margin above row k. */
  lemma RowTopStep(o: GraphOptions, k: nat)
    requires k > 0 && RowHeight(o) >= 0.0
    ensures Margin <= RowTop(o, k - 1) && RowTop(o, k) - Margin == RowTop(o, k - 1) + RowHeight(o)
  {
    TimesIsProduct(k - 1, RowHeight(o) + Margin);
  }

  /** The whole graph is painted inside the canvas, a margin in from its top and bottom edges. */
  lemma GraphInsideMargins(m: Metrics, entries: seq<Entry>, o: GraphOptions)
    requires GraphReady(entries) && RowHeight(o) >= 0.0
    ensures var g := GraphSurface(m, entries, o);
            AllInBand(g.paint, Margin, g.height - Margin)
  {
    RowsInBand(m, o, entries, |entries|);
    GraphBottom(o, |entries|);
  }

  /** Below the last row's margin is the bottom of the canvas. */
  lemma GraphBottom(o: GraphOptions, n: nat)
    ensures RowTop(o, n) == GraphHeight(n, RowHeight(o))
  {
    RowTopIs(o, n);
    var k := n as real;
    assert k * (RowHeight(o) + Margin) == k * RowHeight(o) + k * Margin;
  }

  // ---------------------------------------------------------------------------
  // Headings and the assembled graph

  /**
   * The headings as written: the title, then the subtitle, each exactly when given, each 20
   * tall and as wide as its own text in the 12px default font.
   */
  lemma HeadingsInOrder(m: Metrics, o: GraphOptions)
    ensures var hs := Headings(m, o);
            && |hs| == (if Given(o.title) then 1 else 0) + (if Given(o.subtitle) then 1 else 0)
            && (Given(o.title) ==> hs[0] == HeadingAsWritten(m, o.title.value) && hs[0].width == HeadingWidth(m, o.title))
            && (Given(o.subtitle) ==>
                  hs[|hs| - 1] == HeadingAsWritten(m, o.subtitle.value) && hs[|hs| - 1].width == HeadingWidth(m, o.subtitle))
            && forall i :: 0 <= i < |hs| ==>
                 hs[i].height == 20.0 && (hs[i].width == HeadingWidth(m, o.title) || hs[i].width == HeadingWidth(m, o.subtitle))
  {
  }

  /** The headings as intended: the title, then the subtitle, each exactly when given, each WIDTH wide. */
  lemma IntendedHeadingsInOrder(m: Metrics, o: GraphOptions)
    ensures var hs := IntendedHeadings(m, o);
            && |hs| == (if Given(o.title) then 1 else 0) + (if Given(o.subtitle) then 1 else 0)
            && (Given(o.title) ==> hs[0] == Heading(m, o, o.title.value, RowHeight(o)))
            && (Given(o.subtitle) ==> hs[|hs| - 1] == Heading(m, o, o.subtitle.value, SubtitleHeight(o)))
            && forall i :: 0 <= i < |hs| ==> hs[i].width == GraphWidth(o)
  {
  }

  /**
   * A heading as the headings are evidently meant to be: WIDTH wide, as tall as asked, in the
   * palette's text style, the text kept between the margins (up to the left pixel snap).
   */
  lemma HeadingCentred(m: Metrics, o: GraphOptions, text: string, height: real)
    requires text != ""
    ensures var s := Heading(m, o, text, height);
            var op := s.paint[0];
            var drawn := if op.maxWidth.Some? then op.maxWidth.value else m.width(text, SansSerif(height * 0.6));
            && s.width == GraphWidth(o) && s.height == height
            && op.FillText? && op.text == text && op.style == PaletteOf(o).text
            && Margin - 1.0 < op.x && op.x + drawn <= s.width - Margin
  {
    LabelCenteredInside(m, text, HeadingOptions(o, height));
  }

  /**
   * The discrepancy: with the default row height the title comes out half as tall as the row
   * height it was given, and as wide as its text instead of the graph, starting at its left edge.
   */
  lemma HeadingAsWrittenDiffers(m: Metrics, o: GraphOptions, text: string)
    requires text != "" && o.rowHeight.None? && GraphWidth(o) != m.width(text, SansSerif(12.0))
    ensures HeadingAsWritten(m, text).height * 2.0 == Heading(m, o, text, RowHeight(o)).height
    ensures HeadingAsWritten(m, text).width != Heading(m, o, text, RowHeight(o)).width
  {
  }

  /**
   * The assembled graph as written: it exists exactly when WIDTH is positive and every given
   * heading measures a positive width; it is as wide as the widest of WIDTH and the headings,
   * filled with the palette's background, and holds the headings and then the graph, in that
   * order, at its left edge.
   */
  lemma BarGraphShape(m: Metrics, entries: seq<Entry>, o: GraphOptions)
    requires GraphReady(entries)
    ensures BarGraphSpec(m, entries, o).Success? <==>
              GraphWidth(o) > 0.0 && HeadingFits(m, o.title) && HeadingFits(m, o.subtitle)
    ensures BarGraphSpec(m, entries, o).Success? ==>
              var r := BarGraphSpec(m, entries, o).value;
              var parts := Headings(m, o) + [GraphSurface(m, entries, o)];
              && r.width == Max(GraphWidth(o), Max(HeadingWidth(m, o.title), HeadingWidth(m, o.subtitle)))
              && StackedAtLeftOn(r, parts, PaletteOf(o).background)
  {
    var parts := Headings(m, o) + [GraphSurface(m, entries, o)];
    PartsWidth(m, entries, o);
    FilledStackShape(parts, o);
    if FilledStack(parts, o).Success? {
      StackWidth(m, entries, o);
    }
  }

  /**
   * The parts filled and stacked: made exactly when every part has a positive width, as wide as
   * the widest part, and drawing the parts in order at the left edge over the background.
   */
  lemma FilledStackShape(parts: seq<Surface>, o: GraphOptions)
    requires |parts| > 0
    ensures FilledStack(parts, o).Success? <==> forall i :: 0 <= i < |parts| ==> parts[i].width > 0.0
    ensures FilledStack(parts, o).Success? ==>
              var r := FilledStack(parts, o).value;
              r.width == MaxOf(Crosses(parts, Vertical)) && StackedAtLeftOn(r, parts, PaletteOf(o).background)
  {
    JoinPlainModes(parts, Vertical, VerticalDefaults);
    if JoinSpec(parts, Vertical, VerticalDefaults).Success? {
      JoinPlainLayout(parts, Vertical, VerticalDefaults);
      StackedAtLeft(parts);
    }
  }

  /** The filled stack draws the parts, in order, at the left edge of a background-filled canvas. */
  predicate StackedAtLeftOn(r: Surface, parts: seq<Surface>, background: Style)
  {
    && |r.paint| >= 2
    && r.paint[0] == FillRect(background, 0.0, 0.0, r.width, r.height)
    && r.paint[1].Draw? && r.paint[1].x == 0.0 && r.paint[1].y == 0.0
    && |r.paint[1].src.paint| == |parts|
    && forall i :: 0 <= i < |parts| ==>
         var op := r.paint[1].src.paint[i];
         op.Draw? && op.src == parts[i] && op.x == 0.0
  }

  /**
   * The parts as written: the graph is WIDTH wide, each heading as wide as its text, and all of
   * them have a positive width exactly when WIDTH and every given heading's width are positive.
   */
  lemma PartsWidth(m: Metrics, entries: seq<Entry>, o: GraphOptions)
    requires GraphReady(entries)
    ensures var parts := Headings(m, o) + [GraphSurface(m, entries, o)];
            && parts[|parts| - 1].width == GraphWidth(o)
            && ((forall i :: 0 <= i < |parts| ==> parts[i].width > 0.0) <==>
                  GraphWidth(o) > 0.0 && HeadingFits(m, o.title) && HeadingFits(m, o.subtitle))
  {
    var hs := Headings(m, o);
    var parts := hs + [GraphSurface(m, entries, o)];
    HeadingsInOrder(m, o);
    if GraphWidth(o) > 0.0 && HeadingFits(m, o.title) && HeadingFits(m, o.subtitle) {
      forall i | 0 <= i < |parts|
        ensures parts[i].width > 0.0
      {
        if i < |hs| {
          assert parts[i] == hs[i];
        }
      }
    }
    if forall i :: 0 <= i < |parts| ==> parts[i].width > 0.0 {
      assert parts[|parts| - 1].width > 0.0;
      if Given(o.title) {
        assert parts[0] == hs[0];
      }
      if Given(o.subtitle) {
        assert parts[|hs| - 1] == hs[|hs| - 1];
      }
    }
  }

  /** The widest part of the graph as written: the widest of WIDTH and the given headings. */
  lemma StackWidth(m: Metrics, entries: seq<Entry>, o: GraphOptions)
    requires GraphReady(entries) && GraphWidth(o) > 0.0
    ensures var parts := Headings(m, o) + [GraphSurface(m, entries, o)];
            MaxOf(Crosses(parts, Vertical)) == Max(GraphWidth(o), Max(HeadingWidth(m, o.title), HeadingWidth(m, o.subtitle)))
  {
    var hs := Headings(m, o);
    var parts := hs + [GraphSurface(m, entries, o)];
    var xs := Crosses(parts, Vertical);
    var top := Max(GraphWidth(o), Max(HeadingWidth(m, o.title), HeadingWidth(m, o.subtitle)));
    HeadingsInOrder(m, o);
    var i :| 0 <= i < |xs| && xs[i] == MaxOf(xs);
    if i < |hs| {
      assert parts[i] == hs[i];
    }
    assert xs[|xs| - 1] == GraphWidth(o);
    if Given(o.title) {
      assert xs[0] == HeadingWidth(m, o.title);
    }
    if Given(o.subtitle) {
      assert xs[|hs| - 1] == HeadingWidth(m, o.subtitle);
    }
  }

  /**
   * The assembled graph as intended: it exists exactly when WIDTH is positive; it is WIDTH wide,
   * filled with the palette's background, and holds the headings and then the graph, in that
   * order, at its left edge.
   */
  lemma BarGraphIntendedShape(m: Metrics, entries: seq<Entry>, o: GraphOptions)
    requires GraphReady(entries)
    ensures BarGraphIntended(m, entries, o).Success? <==> GraphWidth(o) > 0.0
    ensures BarGraphIntended(m, entries, o).Success? ==>
              var r := BarGraphIntended(m, entries, o).value;
              var parts := IntendedHeadings(m, o) + [GraphSurface(m, entries, o)];
              r.width == GraphWidth(o) && StackedAtLeftOn(r, parts, PaletteOf(o).background)
  {
    var parts := IntendedHeadings(m, o) + [GraphSurface(m, entries, o)];
    IntendedPartsWidth(m, entries, o);
    FilledStackShape(parts, o);
    MaxOfConstant(Crosses(parts, Vertical), GraphWidth(o));
    assert parts[0].width == GraphWidth(o);
  }

  /** Every part of the intended graph, headings and graph alike, is WIDTH wide. */
  lemma IntendedPartsWidth(m: Metrics, entries: seq<Entry>, o: GraphOptions)
    requires GraphReady(entries)
    ensures var parts := IntendedHeadings(m, o) + [GraphSurface(m, entries, o)];
            forall i :: 0 <= i < |parts| ==> parts[i].width == GraphWidth(o)
  {
    var hs := IntendedHeadings(m, o);
    var parts := hs + [GraphSurface(m, entries, o)];
    IntendedHeadingsInOrder(m, o);
    forall i | 0 <= i < |parts|
      ensures parts[i].width == GraphWidth(o)
    {
      if i < |hs| {
        assert parts[i] == hs[i];
      }
    }
  }

  /** Canvases stacked with the vertical defaults: as wide as the widest, each drawn whole at the left edge. */
  lemma StackedAtLeft(parts: seq<Surface>)
    requires |parts| > 0
    ensures var s := JoinLayout(parts, Vertical, VerticalDefaults);
            && s.width == MaxOf(Crosses(parts, Vertical)) && |s.paint| == |parts|
            && forall i :: 0 <= i < |parts| ==> s.paint[i].Draw? && s.paint[i].src == parts[i] && s.paint[i].x == 0.0
  {
    GeometryShape(parts, Vertical, VerticalDefaults);
    forall i | 0 <= i < |parts|
      ensures var s := JoinLayout(parts, Vertical, VerticalDefaults);
              s.paint[i].Draw? && s.paint[i].src == parts[i] && s.paint[i].x == 0.0
    {
      LayoutAt(parts, Vertical, VerticalDefaults, i);
    }
    LayoutAt(parts, Vertical, VerticalDefaults, 0);
  }
}
