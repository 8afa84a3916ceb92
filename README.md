# node-canvas-utils: a verified model of its layout arithmetic

node-canvas-utils is a small TypeScript library on top of `node-canvas`. Each of its routines creates a fresh canvas of a computed size and draws its inputs into it at computed offsets:

- joins and grids of canvases;
- margins, outlines, drop shadows, crops and superimposition;
- text labels, word-wrapped text boxes and text grids;
- wheel-of-fortune tiles and wheels;
- a bar graph.

This project models that geometry in Dafny and proves what the library promises about it.

A canvas is a value `Surface(width, height, paint)`:

- `paint` is the ordered log of drawing calls made on its context: `Draw`, `DrawScaled`, `FillRect`, `FillText`, compositing and save/restore. Pixels are not modelled.
- A canvas under construction is the class `Raster.Canvas`. Each drawing call appends to its `paint` field. The loop-shaped operations are methods over it or over local sequences, each proved equal to a specification function:
  - `joinCanvasesHorizontal` and `joinCanvasesVertical`;
  - the even grid, `superimpose` and `withOutline`;
  - `getTextBox` and `getTextGrid`;
  - the wheel and its tiles;
  - the bar graph.
- The straight-line operations are functions.

Some of the library's inputs are parameters:

- **Font metrics.** `measureText(...).width` and `actualBoundingBoxAscent` come in as the uninterpreted functions of a `Metrics` value.
- **Wedge width.** The chord width of a wedge, `2R·cos(phi)`, comes in as a function of an `Env`.
- **Vertical labels.** The vertical text label comes in the same way.
- **Images.** An image a bar graph entry failed to load is `None`.

Angles are `Angle(turns, radians)`, meaning 2π·turns + radians, so π never appears. Thrown errors are a `Result` whose failure names the error.

Modules:

- `JsMath` (js_math.dfy): JavaScript's `Math.floor/ceil/round/min/max`, `Math.round(Math.sqrt(n))`, `${n}` and the proportional share used by bar widths.
- `Raster` (raster.dfy): surfaces, paint operations, the `Canvas` class, `Result`, and `Collect`. `Collect` models a loop that pushes one result per step and stops at the first throw.
- `Util` (util.dfy): src/util.ts.
- `Text` (text.dfy): src/text.ts.
- `Games` (games.dfy): src/games.ts.
- `Graphs` (graphs.dfy): src/graphs.ts, with the palette of src/constants.ts.

## Model

| member | source | states |
|---|---|---|
| JsMath.Floor | src/graphs.ts:59 | Math.floor: the greatest integer not above x |
| JsMath.Ceil | src/util.ts:71 | Math.ceil: r − 1 < x ≤ r |
| JsMath.Round | src/util.ts:432 | Math.round, halves rounding up: r − 0.5 ≤ x < r + 0.5 |
| JsMath.Min | src/util.ts:70 | Math.min of two: a lower bound equal to one of them |
| JsMath.Max | src/util.ts:71 | Math.max of two: an upper bound equal to one of them |
| JsMath.MaxOf | src/util.ts:72 | Math.max(...xs) of a non-empty list is an element and bounds every element |
| JsMath.MinOf | src/util.ts:565 | Math.min(...xs) of a non-empty list is an element and is below every element |
| JsMath.IntToString | src/graphs.ts:67 | `${n}` of an integer is non-empty, ends in a digit and has no space |
| JsMath.RoundSqrt | src/util.ts:173 | Math.round(Math.sqrt(n)) is the k with k² − k < n ≤ k² + k, and at least 1 for n > 0 |
| JsMath.RoundSqrtFrom | src/util.ts:173 | the upward search for that k ends at a k meeting both bounds |
| JsMath.CeilDivCovers | src/util.ts:174 | Math.ceil(n / d) columns or rows cover n items and one fewer would not |
| JsMath.SumAppend | src/util.ts:69 | the reduce-sum of a list grows by the appended length |
| JsMath.SumConstant | src/util.ts:128 | the sum of n equal lengths is n times that length |
| JsMath.MaxOfConstant | src/util.ts:127 | Math.max of equal values is that value |
| JsMath.FloorShareBounds | src/graphs.ts:59 | floor(full·v/t) for 0 ≤ v ≤ t lies in [0, full] and is floor(full) at v = t |
| JsMath.FloorShareMonotone | src/graphs.ts:59 | floor(full·v/t) never decreases as v grows |
| Raster.Collect | src/games.ts:49-61 | a loop pushing one result per step gives one value per step, or the first failure |
| Raster.CollectSuccess | src/games.ts:49-61 | the loop succeeds iff every step does, and then yields each step's value in order |
| Raster.CollectFailedPrefix | src/games.ts:49-61 | once a step has thrown, later steps do not change the outcome |
| Raster.CollectSnoc | src/games.ts:60 | one more step appends its value or ends with its failure |
| Raster.CollectStep | src/games.ts:60 | the outcome after step k + 1 follows from the outcome after step k |
| Raster.Canvas.constructor | src/util.ts:73 | createCanvas(width, height) has those dimensions and an empty paint log |
| Raster.Canvas.Paint | src/util.ts:89 | a drawing call appends exactly that operation to the log |
| Util.Resize | src/util.ts:12-37 | throws when neither dimension is given or a given one is ≤ 0, succeeds otherwise; a given dimension is kept; unchanged dimensions return the input itself, other results draw it scaled once |
| Util.ResizeKeepsAspect | src/util.ts:24-25 | with one dimension given the result keeps the input's aspect ratio |
| Util.ResizeCross | src/util.ts:66 | resizing across the join axis to t > 0 succeeds, gives cross size t, and is the identity at the current size |
| Util.ResizeHeightTo | src/util.ts:12-37 | resize to a positive height alone succeeds, gives that height, and returns the image itself when the height is unchanged |
| Util.ResizeWidthTo | src/util.ts:12-37 | resize to a positive width alone succeeds, gives that width, and returns the image itself when the width is unchanged |
| Util.TargetCross | src/util.ts:56-63 | a target cross size exists exactly in the resize-to-* modes |
| Util.ResizeAll | src/util.ts:66 | resizing every canvas succeeds iff every target is positive, and then gives each canvas's own resize in order |
| Util.Lengths | src/util.ts:69 | the lengths along the join axis, one per canvas |
| Util.Crosses | src/util.ts:72 | the sizes across the join axis, one per canvas |
| Util.Sized | src/util.ts:73 | a canvas with the given length along and across the axis |
| Util.AlongStartClosed | src/util.ts:76-91 | canvas i starts after the lengths of the canvases before it plus i steps |
| Util.Placements | src/util.ts:77-92 | the join loop makes one draw per canvas |
| Util.PlacementAt | src/util.ts:89 | draw i places canvas i at its start along the axis, aligned across it |
| Util.Gaps | src/util.ts:71 | Math.max(1, n − 1), at least 1 |
| Util.CoverFromCovers | src/util.ts:71 | counting gaps up from k reaches the least count whose multiple covers the overflow |
| Util.LostCovers | src/util.ts:71 | the per-gap loss times the gaps covers the overflow, and is 0 without one |
| Util.LostPerGapIsCeil | src/util.ts:71 | the counted loss equals Math.ceil(overflow / gaps) |
| Util.CeilCovers | src/util.ts:71 | Math.ceil(v / g) is the least count whose multiple of g covers v |
| Util.CoverAtMost | src/util.ts:71 | a count that covers is at least any count whose predecessor does not |
| Util.TimesLess | src/util.ts:71 | multiples of a positive amount are ordered as their counts are |
| Util.GeometryLostCovers | src/util.ts:71 | the loss per gap covers max(0, IDEAL − cap), and is 0 when IDEAL ≤ cap |
| Util.GeometryLost | src/util.ts:71 | LOST = Math.ceil(Math.max(0, IDEAL − MAX) / Math.max(1, n − 1)) |
| Util.LayoutAt | src/util.ts:76-92 | draw i is canvas i at its running start along the axis and its aligned offset across it |
| Util.Join | src/util.ts:46-152 | joinCanvasesHorizontal/Vertical, proved equal to the join specification: throws on an empty list or a failing resize, else resizes and lays out |
| Util.Compose | src/util.ts:76-92 | the drawing loop advances each canvas by its length plus spacing less the loss |
| Util.SumSplit | src/util.ts:69 | the sum of a one-longer prefix adds the next length |
| Util.JoinUncapped | src/util.ts:69-72 | without overflow nothing is lost, the composite is the lengths plus spacing·(n − 1) long and as thick as the thickest canvas |
| Util.JoinUncappedStart | src/util.ts:91 | without overflow canvas i starts at the prefix sum of lengths plus i spacings |
| Util.JoinCapped | src/util.ts:69-91 | with n ≥ 2 the composite is min(IDEAL, cap) long and the far edge of the last canvas stays inside it |
| Util.FarEdge | src/util.ts:91 | the last canvas ends at the total length plus n − 1 steps |
| Util.FarEdgeBound | src/util.ts:91 | gaps each shortened by the loss absorb the overflow |
| Util.JoinAlignedInside | src/util.ts:79-87 | in every mode each canvas lies across the composite within [0, cross]; bottom/right is flush, center is at (H − h)/2 |
| Util.CrossOffsetInside | src/util.ts:80-87 | the aligned offset keeps a canvas no thicker than the composite inside it |
| Util.JoinResizeModes | src/util.ts:56-66 | in the resize-to-* modes every placed canvas and the composite have the target cross size, at cross offset 0 |
| Util.UniformCrossLayout | src/util.ts:72-87 | canvases of one cross size t join into a composite t thick, each at offset 0 |
| Util.JoinPlainModes | src/util.ts:51-66 | in the plain modes the join fails exactly on an empty list or a canvas without positive cross size, and otherwise draws the inputs themselves |
| Util.JoinPlainLayout | src/util.ts:66 | in the plain modes nothing is resized |
| Util.ShapeOf | src/util.ts:170-178 | given counts are kept, 0 included when both are given; a missing one is Math.ceil(n / given) or columns = round(√n); unless both are given the cells cover the items and both counts are positive |
| Util.Widths | src/util.ts:186 | the widths, one per canvas |
| Util.Heights | src/util.ts:187 | the heights, one per canvas |
| Util.Column | src/util.ts:194 | i % columns is below columns |
| Util.GridCells | src/util.ts:193-202 | one draw per item, in order, each centred in its cell |
| Util.GridFailure | src/util.ts:164-183 | the grid throws exactly on an empty list or explicit rows·columns < n, an explicit 0 count included |
| Util.JoinAsEvenGrid | src/util.ts:163-205 | joinCanvasesAsEvenGrid, proved equal to the grid specification |
| Util.PaintGrid | src/util.ts:189-202 | the drawing loop makes maxW·columns × maxH·rows with each item centred in its cell |
| Util.CellBounds | src/util.ts:196-201 | an item centred in cell pos lies within that cell, inside the grid |
| Util.RowInGrid | src/util.ts:195 | floor(i / columns) < rows when i < rows·columns |
| Util.TimesMono | src/util.ts:196 | more whole cells never reach less far |
| Util.GridItemInCell | src/util.ts:193-201 | item i lies wholly inside cell (i mod columns, i div columns), which lies inside the grid |
| Util.CellInGrid | src/util.ts:194-201 | a draw of an item no larger than the cell lies in its cell and inside the grid |
| Util.WithMargin | src/util.ts:213-230 | (w + left + right) × (h + top + bottom), the source at (left, top); a number applies to all four sides, missing sides are 0 |
| Util.FillBackground | src/util.ts:238-250 | same size, the background filled, then the image at (0, 0) |
| Util.ToCircle | src/util.ts:258-285 | same size; the alpha is set then reset; the clip radius is min(w, h)/2; the image is drawn in the centred bounding square of that circle, inside the canvas |
| Util.ApplyMask | src/util.ts:295-310 | image size; the image, then the mask stretched to that size under destination-in |
| Util.FillWithMask | src/util.ts:319-333 | mask size, filled with the style, then the mask under destination-in |
| Util.SetHue | src/util.ts:460-473 | same size; the image, then the style filled under the hue mode |
| Util.GetRotated | src/util.ts:481-495 | same size, rotated about the centre by the angle; both draw offsets are Math.round(−width/2) |
| Util.OutlineQuality | src/util.ts:371 | quality ≥ 1, defaulting to 32 for images at least 1000 wide and 16 otherwise |
| Util.ShadowCount | src/util.ts:388 | `for (i = 0; i < quality; i++)` runs at least once |
| Util.Shadows | src/util.ts:388-396 | the first n shadows, one per loop pass |
| Util.ShadowAt | src/util.ts:395 | shadow i is the image offset by the thickness at the i-th angle |
| Util.WithOutline | src/util.ts:365-408 | withOutline, proved equal to the outline specification |
| Util.OutlineShape | src/util.ts:367-405 | grows by 2·thickness only when expandCanvas is set; ceil(quality) ≥ 1 shadows, then the style fill under source-in, then the image centred on top |
| Util.OutlineAngles | src/util.ts:389 | shadow angles start at initialAngle and are (k − j)/quality of a turn apart |
| Util.WithDropShadow | src/util.ts:344-353 | an outline of quality 1: one shadow at the distance, at an angle given by alpha (the angle option is never read), filled with rgba(0,0,0,alpha) |
| Util.Stacked | src/util.ts:428-449 | one draw per canvas, in order |
| Util.StackedIndex | src/util.ts:448 | draw i is canvas i at its anchored offsets |
| Util.SuperimposeSpec | src/util.ts:416-452 | throws exactly on an empty list, with that error |
| Util.Superimpose | src/util.ts:416-452 | superimpose, proved equal to its specification |
| Util.AnchorInside | src/util.ts:430-446 | every anchored offset keeps a no-larger canvas inside the output |
| Util.SuperimposeInside | src/util.ts:422-449 | the output is max width × max height, and for every alignment each input lies inside it |
| Util.SuperimposeSingle | src/util.ts:422-448 | a single input comes back at its own size, drawn at (0, 0) |
| Util.Crop | src/util.ts:508-552 | size defaults to the source's; left/top at 0, right/bottom flush, center within half a pixel of the middle, custom at −(x ?? 0) |
| Util.CropIgnoresCustomOffsets | src/util.ts:517-547 | the anchored modes ignore the x and y options |
| Util.Xs | src/util.ts:565 | the x coordinates of the points |
| Util.Ys | src/util.ts:567 | the y coordinates of the points |
| Util.CropAroundPoints | src/util.ts:561-579 | throws exactly on no points; the output is the bounding box plus 2·margin, and every point lands in [margin, size − margin] on both axes |
| Util.CropToSquare | src/util.ts:586-589 | a min(w, h) square of the source, centred to within half a pixel |
| Text.TextMeasurer.constructor | src/text.ts:5 | no scratch canvas exists before the first measurement |
| Text.TextMeasurer.GetTextWidth | src/text.ts:13-21 | the measured width; the scratch canvas is created on the first call and reused by every later one |
| Text.GetTextLabel | src/text.ts:37-77 | throws exactly on empty text; height defaults to 20, the font to 0.6·height sans-serif, the width to the measured text width; one fillText of the text |
| Text.LabelBaselineCentred | src/text.ts:54-55 | the ascent is centred: the glyph tops are as far below the top as the baseline is above the bottom |
| Text.LabelBaselineIgnoresAlign | src/text.ts:63-71 | the alignment never moves the baseline |
| Text.LabelCenteredInside | src/text.ts:57-67 | text wider than WIDTH − 2·margin is compressed to exactly maxWidth = WIDTH − 2·margin at x = floor(margin); narrower text is centred with no maxWidth; either way it stays between the margins up to the pixel snap |
| Text.LabelRightFlush | src/text.ts:68-69 | right-aligned text ends at the right edge, snapped left to a whole pixel, with maxWidth the whole WIDTH (the margin is ignored) |
| Text.LabelLeftAligned | src/text.ts:70-71 | left-aligned text starts at x = 0 with maxWidth the whole WIDTH (the margin is ignored) |
| Text.LabelFitsText | src/text.ts:38-66 | a label fitted to its text holds it uncompressed at x = 0 |
| Text.Split | src/text.ts:100 | text.split(' ') gives at least one piece, none containing a space |
| Text.JoinSplit | src/text.ts:100 | joining the pieces with single spaces gives back the text |
| Text.SplitJoin | src/text.ts:100 | splitting space-free words joined with spaces gives back the words |
| Text.SplitWord | src/text.ts:100 | a word without spaces splits to itself |
| Text.SplitBefore | src/text.ts:100 | a space-free word and a space split off as the first piece |
| Text.FillRow | src/text.ts:106-114 | the inner loop only extends the row and only consumes the queue |
| Text.FillRowStops | src/text.ts:106-114 | the inner loop stops under the width with the input exhausted or an empty word dropped, or at the width with nothing dropped |
| Text.FillRowStopsHere | src/text.ts:106-112 | the same when the loop stops at once |
| Text.NextRow | src/text.ts:104-118 | each outer pass makes a row of at least one word and consumes at least one word |
| Text.NextRowGreedy | src/text.ts:104-118 | each row is greedy: it ends the input or an empty word under the width, or the next word would reach the width and is put back, or it is one word at least the width |
| Text.WrapRowsFit | src/text.ts:102-118 | every row has a word and a row of several words measures less than the width |
| Text.WrapKeepsWords | src/text.ts:100-121 | without empty words the rows read in order are exactly the words |
| Text.WrapLongWordAlone | src/text.ts:104-118 | a first word at least as wide as the box is a row on its own |
| Text.RowLabels | src/text.ts:121 | one label per row, or the first row's failure |
| Text.GetTextBox | src/text.ts:93-125 | getTextBox, proved equal to its specification: wrap, label each row, join vertically |
| Text.TakeRow | src/text.ts:104-118 | one outer pass of the queue loop, proved equal to the row specification |
| Text.FillFirstRow | src/text.ts:104-114 | the inner while loop, proved equal to the row-filling function |
| Text.RowLabelsSnoc | src/text.ts:121 | labelling one more row appends its label or ends with its failure |
| Text.RowLabelsFailure | src/text.ts:121 | once a row's label throws, later rows do not matter |
| Text.TextBoxEmpty | src/text.ts:100 | empty text splits to one empty word and the box throws the no-text error |
| Text.RowLabelsMade | src/text.ts:121 | every labelled row joins to non-empty text and gets getTextLabel's label |
| Text.StackHeight | src/text.ts:124 | rows all rowHeight tall stack to rows·rowHeight (up to the cap) |
| Text.UniformStack | src/text.ts:124 | width × rowHeight labels stack at the left edge, in order |
| Text.TextBoxSize | src/text.ts:93-125 | a text box is width wide and rows·rowHeight tall, drawing each row's label at the left edge in order |
| Text.CellText | src/text.ts:144 | `cell.text \|\| ' '` is never empty and keeps non-empty text |
| Text.ColumnLabels | src/text.ts:141-145 | the labels of column c, one per row |
| Text.ColumnLabelAt | src/text.ts:142-144 | label r of column c is cell (r, c)'s label |
| Text.ColumnResults | src/text.ts:139-147 | building each column in turn gives that column's result |
| Text.GetTextGrid | src/text.ts:135-149 | getTextGrid, proved equal to its specification |
| Text.BuildColumn | src/text.ts:140-146 | the inner loop and its join, proved equal to the column specification |
| Text.GridColumnsSuccess | src/text.ts:139-147 | the columns are built iff each one is, and then they are those columns in order |
| Text.GridColumnSuccess | src/text.ts:140-146 | a column is built iff every row has the cell and every cell label has positive width |
| Text.ColumnsOk | src/text.ts:139-147 | the first k columns are built iff each satisfies the column condition |
| Text.GridColumnHeight | src/text.ts:144-146 | a built column is rowHeight per row tall (up to the cap) |
| Text.TextGridSuccess | src/text.ts:135-149 | the grid is made iff a non-empty first row exists, no row is shorter, every cell label has width and the row height is positive |
| Text.GridColumnsMade | src/text.ts:137-147 | all columns are built iff no row is short and every cell label has width |
| Text.TextGridIsJoin | src/text.ts:148 | the grid is the top-aligned horizontal join of its columns with the spacing |
| Text.ColumnsHeight | src/text.ts:146 | every built column has the same height |
| Text.GridJoinMade | src/text.ts:148 | the columns are joined iff there is one and the row height is positive |
| Text.GridPlacesColumn | src/text.ts:146-148 | column c is drawn at the top edge as the column built for it |
| Text.ColumnPlacesCell | src/text.ts:142-146 | cell (r, c) is drawn at the left of column c as the label of its text, and the column is as wide as its widest cell |
| Games.WedgesFillTurn | src/games.ts:38 | N wedges of 2π/N make one full turn |
| Games.SquareOf | src/games.ts:55-59 | a built tile gives a 2R × 2R square, a failed one its failure |
| Games.SubSquares | src/games.ts:51-61 | one square per sub-tile, in order |
| Games.CreateTile | src/games.ts:33-119 | createWheelOfFortuneTile, proved equal to the tile specification |
| Games.PlaceTile | src/games.ts:55-59 | one loop step, proved equal to the square specification |
| Games.DrawNumber | src/games.ts:94-101 | the number branch, proved equal to its draw |
| Games.StackCent | src/games.ts:96-100 | the cent sign stacked over the amount, proved equal to its draw |
| Games.DrawCaption | src/games.ts:103-108 | the string branch, proved equal to its draw |
| Games.DrawIcon | src/games.ts:110-115 | the image branch, proved equal to its draw |
| Games.SubSquaresPrefix | src/games.ts:51-61 | the first k squares are the first k of a longer run |
| Games.SubSquaresFailed | src/games.ts:51-61 | a sub-tile that throws ends the compound tile with its error |
| Games.SubSquareAt | src/games.ts:52-60 | square i is sub-tile i's square |
| Games.WheelSquares | src/games.ts:18-28 | square i of the wheel loop is tile i's square |
| Games.BuildSquare | src/games.ts:19-27 | one pass of the wheel loop, proved equal to tile i's turned square |
| Games.CreateWheel | src/games.ts:14-30 | createWheelOfFortune, proved equal to the wheel specification |
| Games.CollectedSquares | src/games.ts:27-29 | collected squares of one size all have that size |
| Games.SuperimposeSquares | src/games.ts:29 | squares of one size superimposed centred land at (0, 0) of a square of that size |
| Games.SquareSize | src/games.ts:23-26 | a built square is 2R × 2R whatever its tile, since rotation keeps size |
| Games.TileSize | src/games.ts:44-67 | every tile is WIDTH × R: simple tiles are made that size, compound ones are cropped to it |
| Games.CompoundEmpty | src/games.ts:63 | a compound tile with no sub-tiles throws |
| Games.CompoundSuccess | src/games.ts:48-65 | a compound tile is made iff it has sub-tiles and each is made |
| Games.CompoundMade | src/games.ts:48-65 | with sub-tiles all made, the compound tile is made |
| Games.CompoundThrows | src/games.ts:53 | a sub-tile that throws makes the compound tile throw |
| Games.CompoundSlot | src/games.ts:50-60 | sub-tile i keeps R, has N·M sectors and its own styles, never horizontal, and is drawn at the top centre of a 2R × 2R square turned to slot i |
| Games.CompoundCrop | src/games.ts:64 | the combined squares are cropped top-centre to WIDTH × R |
| Games.SimpleTile | src/games.ts:67-115 | a simple tile is its wedge (fill red by default, stroke inside R, line width round(unit/12)) and exactly one face from its branch |
| Games.NumberFace | src/games.ts:94-101 | a number is the cent sign over the amount's label (one unit tall, 1.25-unit Clarendon font), shadowed and centred at the top |
| Games.HorizontalAmount | src/games.ts:98 | the amount's horizontal label never throws |
| Games.CentFace | src/games.ts:96-100 | the pair is as wide as the wider part, each part centred across it at (W − w)/2; the cent sign at y = 0 and the amount at y = the cent sign's height (below the length cap); shadowed and centred at the top |
| Games.CentredPair | src/games.ts:99 | a centre-aligned vertical join of two canvases: the wider's width, each at (W − w)/2, the second right below the first under the cap |
| Games.CaptionFace | src/games.ts:103-108 | a word's label is centred, a tenth of a unit down, at most 0.6 of the tile tall |
| Games.EmptyHorizontalCaption | src/games.ts:104-105 | an empty word on a horizontal tile throws the no-text error |
| Games.IconFace | src/games.ts:110-115 | an icon is resized to min(WIDTH, R/2) and drawn as a centred 3/4 square an eighth of the box down |
| Games.IconBoxTooSmall | src/games.ts:111-113 | an icon box that is not positive makes resize throw, and the tile with it |
| Games.WheelEmpty | src/games.ts:29 | the empty wheel throws |
| Games.WheelSuccess | src/games.ts:14-30 | a wheel is made iff it has tiles and each is made |
| Games.WheelTileOptions | src/games.ts:20-22 | tile i has N sectors, R = 300 and red-on-white unless its entry says otherwise |
| Games.WheelSlot | src/games.ts:22-29 | tile i is drawn at the top centre of a 600 × 600 square turned by i/N, which lands at (0, 0) of the wheel |
| Games.ExpandedCentres | src/games.ts:23-25 | a tile lands at the top centre of its 2R × 2R square |
| Games.SubTurns | src/games.ts:58 | the slot turns of the first k sub-tiles |
| Games.SubTurnsMirror | src/games.ts:58 | rot_i = −rot_(M−1−i) |
| Games.SubTurnsPartialSum | src/games.ts:58 | the first k slot turns add to k(M − k)/(2MN) |
| Games.SubTurnsSumZero | src/games.ts:58 | all slot turns add to zero |
| Games.SubTurnStep | src/games.ts:58 | neighbouring slots are θ/M apart, the wedge of an N·M wheel |
| Games.SubWedgesCover | src/games.ts:53-58 | the sub-wedges exactly cover the wedge from θ/2 to −θ/2 |
| Graphs.MaxValue | src/graphs.ts:28 | the largest value bounds every entry and is some entry's value |
| Graphs.PaintRow | src/graphs.ts:32-79 | one pass of the row loop appends that row's paint |
| Graphs.PaintName | src/graphs.ts:42-48 | the name box and the clipped name are appended |
| Graphs.PaintIcon | src/graphs.ts:50-55 | the image box, and the image when it loaded, are appended |
| Graphs.PaintBar | src/graphs.ts:60-65 | the bar, and its highlight when wide enough, are appended |
| Graphs.PaintValue | src/graphs.ts:67-76 | the value text is appended where the inside/outside rule puts it |
| Graphs.PaintGraph | src/graphs.ts:18-79 | the row loop, proved equal to the graph canvas specification |
| Graphs.CreateBarGraph | src/graphs.ts:7-98 | createBarGraph, proved equal to its specification with the headings as written (see Graphs.BarGraphShape) |
| Graphs.AddHeadings | src/graphs.ts:81-91 | the title then the subtitle are pushed, each only when given, each a getTextLabel made with no options |
| Graphs.RowTopIs | src/graphs.ts:31-78 | row i starts at MARGIN + i·(RH + MARGIN) |
| Graphs.LastRowEnds | src/graphs.ts:19-78 | the last row ends exactly one margin above the bottom of HEIGHT |
| Graphs.GraphBottom | src/graphs.ts:19-78 | after the last row baseY is HEIGHT |
| Graphs.BarWidthBounds | src/graphs.ts:58-59 | 0 ≤ value ≤ max gives 0 ≤ barWidth ≤ MAX_BAR_WIDTH, ending a margin before the edge; the largest value gets floor(MAX_BAR_WIDTH) |
| Graphs.BarWidthMonotone | src/graphs.ts:59 | a larger value never gets a shorter bar |
| Graphs.LongestBar | src/graphs.ts:28-59 | some entry gets the full bar |
| Graphs.IconDrawnIffLoaded | src/graphs.ts:34-55 | the image is drawn inside the box's padding iff it loaded; otherwise the row keeps an empty box |
| Graphs.HighlightInsideBar | src/graphs.ts:60-65 | the highlight is drawn iff barWidth > 2·PADDING, and then lies strictly inside the bar |
| Graphs.ValuePlacement | src/graphs.ts:67-76 | the value goes inside the bar's end iff textWidth + 4·PADDING < barWidth, else at barStart + barWidth + MARGIN |
| Graphs.RowInBand | src/graphs.ts:42-76 | everything a row paints lies in its own band of ROW_HEIGHT |
| Graphs.StackBands | src/graphs.ts:78 | a row a margin below earlier paint extends the band |
| Graphs.StackRow | src/graphs.ts:78 | one more row keeps everything in the band from the top margin |
| Graphs.RowsInBand | src/graphs.ts:31-79 | the first k rows paint between the top margin and a margin above row k: rows never overlap |
| Graphs.NextRowInBand | src/graphs.ts:31-79 | row k − 1 keeps the band property of the rows above |
| Graphs.RowTopStep | src/graphs.ts:78 | baseY advances by a row and a margin |
| Graphs.GraphInsideMargins | src/graphs.ts:18-79 | the whole graph is painted a margin in from its top and bottom edges |
| Graphs.HeadingsInOrder | src/graphs.ts:81-91 | as written: title first, subtitle last, each exactly when given, each 20 tall and as wide as its text in the 12px sans-serif default |
| Graphs.IntendedHeadingsInOrder | src/graphs.ts:81-91 | as intended: title first, subtitle last, each exactly when given, each WIDTH wide |
| Graphs.HeadingCentred | src/graphs.ts:85 | a heading, as intended, is WIDTH × height in the palette's text style with the text between the margins |
| Graphs.HeadingAsWritten | src/graphs.ts:85 | as written, a heading gets every getTextLabel default: 20 tall, text-wide, white, at x = 0 |
| Graphs.HeadingAsWrittenDiffers | src/graphs.ts:85 | with the default row height the as-written title is half as tall as intended and not WIDTH wide |
| Graphs.BarGraphShape | src/graphs.ts:81-97 | as written: the graph exists iff WIDTH > 0 and every given heading's text measures a positive width; it is as wide as the widest of WIDTH and the headings, filled with the background, headings then graph at the left edge |
| Graphs.BarGraphIntendedShape | src/graphs.ts:81-97 | with the intended headings: the graph exists iff WIDTH > 0; it is WIDTH wide, filled with the background, headings then graph at the left edge |
| Graphs.PartsWidth | src/graphs.ts:81-94 | as written: the graph part is WIDTH wide, and all parts are wider than 0 iff WIDTH and every given heading's text width are |
| Graphs.StackWidth | src/graphs.ts:81-97 | as written: the widest part is the widest of WIDTH and the given headings' text widths |
| Graphs.IntendedPartsWidth | src/graphs.ts:81-94 | as intended: every stacked part is WIDTH wide |
| Graphs.FilledStackShape | src/graphs.ts:97 | fillBackground(joinCanvasesVertical(parts)) is made iff every part has a positive width; it is as wide as the widest part, background first, then the parts in order at the left edge |
| Graphs.StackedAtLeft | src/graphs.ts:97 | parts stacked with the vertical defaults make a canvas as wide as the widest, each part at the left edge |

## Left out

- **Pixels.** Resampling, compositing, clipping, path fill and stroke and antialiasing are foreign native calls. They are paint-log entries only.
- **Trigonometry.** Floating-point trigonometry is outside the model:
  - The wedge width `2R·cos(phi)` and the crown vertices (src/games.ts:38-44, 79-91) come in as one function of `Env`. The wedge is a single `WedgePath` entry.
  - The outline offsets `thickness·cos/sin(angle)` (src/util.ts:390-394) are a polar draw: radius, angle and origin, not coordinates.
  - The rotate/translate of getRotated is one `DrawRotated` entry.
- **Font shaping and metrics.** These are uninterpreted. getVerticalTextLabel, imported by src/games.ts but not defined in src/text.ts, is a parameter too.
- **Image loading.** `canvas.loadImage` and the async flow of createBarGraph are left out. Each entry carries the image the load gave, or `None` when it threw.
- **Floating point.** All sizes are exact reals and integers are unbounded. Node-canvas truncates canvas dimensions to integers, and that is not modelled. Non-integer bar-graph values are not modelled: values are `int`.
- **Non-finite sizes.** Resize by a zero dimension, and a bar graph whose largest value is 0, would give JavaScript Infinity or NaN. These are excluded by `requires`:
  - Util.Resize: requires the image's matching dimension to be non-zero when one dimension is inferred.
  - Graphs.CreateBarGraph: requires a non-zero largest value. With no entries Math.max() is −Infinity and the loop never runs, so the empty graph is allowed.
- Util.JoinAsEvenGrid: counts are natural numbers. Negative and fractional counts are not modelled. A count of 0 given alone is excluded by `requires`: Math.ceil(n / 0) is Infinity, no error is thrown, and the canvas size is non-finite.
- Games.Tile: requires at least one sector. With `n: 0` the wedge angle 2π/0 is Infinity (src/games.ts:38) and every size after it is non-finite.
- Games.Content: amounts are integers. A fractional amount, which `content.toString()` (src/games.ts:98) prints with its decimals, is not modelled.
- **Error messages.** They are not modelled: each throw is an `Error` tag. The message of the non-positive-height error interpolates the width (src/util.ts:20), and that is not reflected.
- **A non-array canvas list.** The `!canvases` guards of the joins are not modelled: the list is always a sequence.
- **Out-of-scope files.** build/, tests/, types and the `lightPadding`/`darkPadding` colours are not part of this model, beyond the palette constant.
- Text.TextMeasurer.GetTextWidth: the scratch canvas's own drawing state (its font) is not tracked. Only its creation and reuse are modelled.
- Util.WithOutline: the shadows' coordinates (cos/sin) are not computed. The contract states their radius, angle and origin instead.

## Findings

| source | as written | input that shows it | evidently intended | confidence | as-written member | corrected member |
|---|---|---|---|---|---|---|
| src/graphs.ts:85 | the title (and at :90 the subtitle) is made with `getTextLabel(text, WIDTH, ROW_HEIGHT, {...})`, but getTextLabel (src/text.ts:37) takes `(text, options?)`, so `options` is the number WIDTH and every option reads as undefined | any title with the default options: the label is 20 tall instead of ROW_HEIGHT = 40, as wide as its text instead of WIDTH = 480, white, at x = 0 | the call of build/graphs.js:123: `{ width: WIDTH, height: ROW_HEIGHT, align: 'center', style: PALETTE.text, margin: MARGIN }` (height Math.round(ROW_HEIGHT·0.66) for the subtitle) | not executed | Graphs.HeadingAsWrittenDiffers | Graphs.BarGraphIntendedShape |

The model follows the code as written: Graphs.CreateBarGraph and Graphs.BarGraphSpec use the as-written headings, and Graphs.BarGraphShape states what that assembly is. Graphs.BarGraphIntended assembles the graph with the intended headings; Graphs.HeadingCentred and Graphs.BarGraphIntendedShape are proved about it.
