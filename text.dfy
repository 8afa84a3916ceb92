/**
 * Text layout of src/text.ts: single-line labels, the greedy word wrap of text boxes and
 * spreadsheet-like text grids. Glyph shaping is the native library's business: the width
 * and ascent of a string in a font are given by Metrics and are not interpreted.
 */
module Text {
  import opened JsMath
  import opened Raster
  import opened Util

  /** measureText(text).width and .actualBoundingBoxAscent with the context's font set. */
  datatype Metrics = Metrics(width: (string, Font) -> real, ascent: (string, Font) -> real)

  // ---------------------------------------------------------------------------
  // getTextWidth

  /**
   * The module-level scratch canvas of getTextWidth: created on the first measurement
   * and reused by every later one.
   */
  class TextMeasurer {
    const metrics: Metrics
    var scratch: Canvas?

    predicate Valid()
      reads this
    {
      scratch != null ==> scratch.width == 1.0 && scratch.height == 1.0
    }

    constructor (metrics: Metrics)
      ensures this.metrics == metrics && scratch == null && Valid()
    {
      this.metrics := metrics;
      scratch := null;
    }

    method GetTextWidth(text: string, font: Font) returns (w: real)
      requires Valid()
      modifies this
      ensures Valid() && scratch != null
      ensures w == metrics.width(text, font)
      ensures old(scratch) != null ==> scratch == old(scratch)
      ensures old(scratch) == null ==> fresh(scratch)
    {
      if scratch == null {
        scratch := new Canvas(1.0, 1.0);
      }
      w := metrics.width(text, font);
    }
  }

  // ---------------------------------------------------------------------------
  // getTextLabel

  datatype TextAlign = AlignCenter | AlignLeft | AlignRight

  datatype LabelOptions = LabelOptions(width: Option<real>, height: Option<real>, align: Option<TextAlign>,
                                       font: Option<Font>, style: Option<Style>, alpha: Option<real>,
                                       margin: Option<real>)

  const NoLabelOptions := LabelOptions(None, None, None, None, None, None, None)

  function LabelHeight(o: LabelOptions): real
  {
    o.height.GetOr(20.0)
  }

  /** The font defaults to a sans-serif of 0.6 times the label height. */
  function LabelFont(o: LabelOptions): Font
  {
    o.font.GetOr(SansSerif(LabelHeight(o) * 0.6))
  }

  /** The label width defaults to the measured width of the text. */
  function LabelWidth(m: Metrics, text: string, o: LabelOptions): real
  {
    o.width.GetOr(m.width(text, LabelFont(o)))
  }

  /** The baseline: half the space left by the ascent above the glyphs, then the ascent. */
  function Baseline(m: Metrics, text: string, o: LabelOptions): real
  {
    var ascent := m.ascent(text, LabelFont(o));
    (LabelHeight(o) - ascent) / 2.0 + ascent
  }

  /** The fillText call for each alignment: where the text starts and its maximum width. */
  function LabelText(m: Metrics, text: string, o: LabelOptions): Op
  {
    var width := LabelWidth(m, text, o);
    var font := LabelFont(o);
    var textWidth := m.width(text, font);
    var style := o.style.GetOr(Color("white"));
    var alpha := o.alpha.GetOr(1.0);
    var y := Baseline(m, text, o);
    match o.align.GetOr(AlignCenter)
    case AlignCenter =>
      var margin := o.margin.GetOr(0.0);
      var usable := width - 2.0 * margin;
      if textWidth > usable then
        FillText(text, font, style, alpha, Floor(margin) as real, y, Some(usable))
      else
        FillText(text, font, style, alpha, Floor(margin + (usable - textWidth) / 2.0) as real, y, None)
    case AlignRight => FillText(text, font, style, alpha, Floor(width - textWidth) as real, y, Some(width))
    case AlignLeft => FillText(text, font, style, alpha, 0.0, y, Some(width))
  }

  /** getTextLabel: a transparent width x height canvas holding one line of text. */
  function GetTextLabel(m: Metrics, text: string, o: LabelOptions): (r: Result<Surface>)
    ensures r.Failure? <==> text == ""
    ensures r.Failure? ==> r.error == NoText
    ensures r.Success? ==>
              && r.value.width == o.width.GetOr(m.width(text, LabelFont(o)))
              && r.value.height == o.height.GetOr(20.0)
              && |r.value.paint| == 2 && r.value.paint[0].FillText? && r.value.paint[0].text == text
              && r.value.paint[0].font == o.font.GetOr(SansSerif(o.height.GetOr(20.0) * 0.6))
  {
    if text == "" then Failure(NoText)
    else Success(Surface(LabelWidth(m, text, o), LabelHeight(o), [LabelText(m, text, o), Restore]))
  }

  /**
   * The ascent is centred vertically: the glyph tops are as far below the top edge as the
   * baseline is above the bottom edge, in every alignment.
   */
  lemma LabelBaselineCentred(m: Metrics, text: string, o: LabelOptions)
    requires text != ""
    ensures var s := GetTextLabel(m, text, o).value;
            var ascent := m.ascent(text, LabelFont(o));
            s.paint[0].y - ascent == s.height - s.paint[0].y
  {
  }

  /** The alignment moves the text only horizontally. */
  lemma LabelBaselineIgnoresAlign(m: Metrics, text: string, o: LabelOptions, a: Option<TextAlign>)
    requires text != ""
    ensures GetTextLabel(m, text, o.(align := a)).value.paint[0].y == GetTextLabel(m, text, o).value.paint[0].y
  {
  }

  /**
   * Centred text stays between the margins, up to the pixel snap on the left: a text wider
   * than the usable width is compressed to it and starts at the margin, a narrower one is
   * centred in it.
   */
  lemma LabelCenteredInside(m: Metrics, text: string, o: LabelOptions)
    requires text != "" && o.align.GetOr(AlignCenter) == AlignCenter
    ensures var s := GetTextLabel(m, text, o).value;
            var op := s.paint[0];
            var margin := o.margin.GetOr(0.0);
            var textWidth := m.width(text, LabelFont(o));
            var drawn := if op.maxWidth.Some? then op.maxWidth.value else textWidth;
            && drawn <= textWidth
            && (op.maxWidth.Some? <==> textWidth > s.width - 2.0 * margin)
            && (op.maxWidth.Some? ==> op.maxWidth.value == s.width - 2.0 * margin && op.x == Floor(margin) as real)
            && margin - 1.0 < op.x && op.x + drawn <= s.width - margin
            && (op.maxWidth.None? ==>
                  var slack := s.width - margin - (op.x + textWidth);
                  op.x - margin <= slack < op.x - margin + 2.0)
  {
  }

  /**
   * Right-aligned text ends at the right edge, snapped left to a whole pixel, and may be
   * squeezed only to the full label width (the margin is not applied).
   */
  lemma LabelRightFlush(m: Metrics, text: string, o: LabelOptions)
    requires text != "" && o.align == Some(AlignRight)
    ensures var s := GetTextLabel(m, text, o).value;
            var textWidth := m.width(text, LabelFont(o));
            && s.width - 1.0 < s.paint[0].x + textWidth <= s.width
            && s.paint[0].maxWidth == Some(s.width)
  {
  }

  /** Left-aligned text starts at the left edge, ignoring the margin, and may be squeezed to the full label width. */
  lemma LabelLeftAligned(m: Metrics, text: string, o: LabelOptions)
    requires text != "" && o.align == Some(AlignLeft)
    ensures var s := GetTextLabel(m, text, o).value;
            s.paint[0].FillText? && s.paint[0].x == 0.0 && s.paint[0].maxWidth == Some(s.width)
  {
  }

  /** A label fitted to its text (no width, no margin, centred) holds it uncompressed at the left edge. */
  lemma LabelFitsText(m: Metrics, text: string, o: LabelOptions)
    requires text != "" && o.width.None? && o.margin.None? && o.align.GetOr(AlignCenter) == AlignCenter
    ensures var op := GetTextLabel(m, text, o).value.paint[0];
            op.x == 0.0 && op.maxWidth.None?
  {
  }

  // ---------------------------------------------------------------------------
  // text.split(' ') and words.join(' ')

  function Split(s: string): (ws: seq<string>)
    ensures |ws| >= 1
    ensures forall i :: 0 <= i < |ws| ==> ' ' !in ws[i]
  {
    if s == [] then [""]
    else
      var rest := Split(s[1..]);
      if s[0] == ' ' then [""] + rest
      else [[s[0]] + rest[0]] + rest[1..]
  }

  function JoinWords(ws: seq<string>): string
  {
    if |ws| == 0 then ""
    else if |ws| == 1 then ws[0]
    else ws[0] + " " + JoinWords(ws[1..])
  }

  /** Joining the pieces of a split with single spaces gives back the text. */
  lemma {:induction false} JoinSplit(s: string)
    ensures JoinWords(Split(s)) == s
  {
    if s != [] {
      var rest := Split(s[1..]);
      JoinSplit(s[1..]);
      if s[0] == ' ' {
        assert Split(s) == [""] + rest;
        assert ([""] + rest)[1..] == rest;
        assert JoinWords(Split(s)) == "" + " " + JoinWords(rest);
        assert s == [s[0]] + s[1..];
      } else if |rest| == 1 {
        assert Split(s) == [[s[0]] + rest[0]];
        assert s == [s[0]] + s[1..];
      } else {
        var ws := Split(s);
        assert ws == [[s[0]] + rest[0]] + rest[1..];
        assert ws[1..] == rest[1..];
        assert JoinWords(ws) == [s[0]] + rest[0] + " " + JoinWords(rest[1..]);
        assert JoinWords(rest) == rest[0] + " " + JoinWords(rest[1..]);
        assert s == [s[0]] + s[1..];
      }
    }
  }

  /** Splitting words without spaces that were joined with single spaces gives back the words. */
  lemma {:induction false} SplitJoin(ws: seq<string>)
    requires |ws| >= 1 && forall i :: 0 <= i < |ws| ==> ' ' !in ws[i]
    ensures Split(JoinWords(ws)) == ws
  {
    if |ws| == 1 {
      SplitWord(ws[0]);
    } else {
      SplitJoin(ws[1..]);
      SplitBefore(ws[0], JoinWords(ws[1..]));
      assert ws == [ws[0]] + ws[1..];
    }
  }

  lemma {:induction false} SplitWord(w: string)
    requires ' ' !in w
    ensures Split(w) == [w]
  {
    if w != [] {
      SplitWord(w[1..]);
      assert w == [w[0]] + w[1..];
    }
  }

  /** A word without spaces followed by a space is the first piece of the split. */
  lemma {:induction false} SplitBefore(w: string, t: string)
    requires ' ' !in w
    ensures Split(w + " " + t) == [w] + Split(t)
  {
    if w == [] {
      assert (w + " " + t)[1..] == t;
    } else {
      SplitBefore(w[1..], t);
      assert (w + " " + t)[1..] == w[1..] + " " + t;
      assert w == [w[0]] + w[1..];
    }
  }

  // ---------------------------------------------------------------------------
  // getTextBox: the greedy word wrap

  /** The width of words joined with spaces, in the text box font. */
  function RowWidth(m: Metrics, font: Font, row: seq<string>): real
  {
    m.width(JoinWords(row), font)
  }

  /** Where the inner loop stopped: the row, the queue left and whether input ran out. */
  datatype RowFill = RowFill(row: seq<string>, rest: seq<string>, reachedEnd: bool)

  /**
   * The inner loop of getTextBox: while the row measures less than the width, shift the next
   * word onto it. A missing word (the queue is empty) or an empty one, which is falsy, ends
   * the row as if the input had run out; the empty word is consumed.
   */
  function FillRow(m: Metrics, font: Font, width: real, row: seq<string>, queue: seq<string>): (f: RowFill)
    ensures row <= f.row && |f.rest| <= |queue|
    ensures |f.row| + |f.rest| <= |row| + |queue|
    decreases |queue|
  {
    if RowWidth(m, font, row) < width then
      if queue == [] then RowFill(row, [], true)
      else if queue[0] == "" then RowFill(row, queue[1..], true)
      else FillRow(m, font, width, row + [queue[0]], queue[1..])
    else RowFill(row, queue, false)
  }

  /**
   * One pass of the outer loop: start a row with the first word, fill it, and when it
   * overflowed with more than one word put the last word back at the front of the queue.
   */
  function NextRow(m: Metrics, font: Font, width: real, words: seq<string>): (rr: (seq<string>, seq<string>))
    requires |words| > 0
    ensures |rr.0| >= 1 && |rr.1| < |words|
  {
    var f := FillRow(m, font, width, [words[0]], words[1..]);
    if !f.reachedEnd && |f.row| > 1 then (f.row[..|f.row| - 1], [f.row[|f.row| - 1]] + f.rest)
    else (f.row, f.rest)
  }

  /** The rows of words getTextBox makes from a queue of words. */
  function Wrap(m: Metrics, font: Font, width: real, words: seq<string>): seq<seq<string>>
    decreases |words|
  {
    if words == [] then []
    else
      var rr := NextRow(m, font, width, words);
      [rr.0] + Wrap(m, font, width, rr.1)
  }

  function Flatten(rows: seq<seq<string>>): seq<string>
  {
    if rows == [] then [] else rows[0] + Flatten(rows[1..])
  }

  /**
   * Why the inner loop stopped. Either the row measured less than the width and the input ran
   * out or an empty word was met (and dropped), or the row reached the width with the words
   * it holds, none of them dropped. A row that measures less than the width except for its
   * last word keeps that guarantee.
   */
  lemma {:induction false} FillRowStops(m: Metrics, font: Font, width: real, row: seq<string>, queue: seq<string>)
    requires |row| > 1 ==> RowWidth(m, font, row[..|row| - 1]) < width
    ensures var f := FillRow(m, font, width, row, queue);
            var all := row + queue;
            && (|f.row| > 1 ==> RowWidth(m, font, f.row[..|f.row| - 1]) < width)
            && (f.reachedEnd ==>
                  && RowWidth(m, font, f.row) < width
                  && ((f.row == all && f.rest == [])
                      || (|f.row| < |all| && all[|f.row|] == "" && f.rest == all[|f.row| + 1..])))
            && (!f.reachedEnd ==> f.row + f.rest == all && RowWidth(m, font, f.row) >= width)
    decreases |queue|
  {
    if RowWidth(m, font, row) < width && queue != [] && queue[0] != "" {
      var next := row + [queue[0]];
      assert next[..|next| - 1] == row;
      assert next + queue[1..] == row + queue;
      assert FillRow(m, font, width, row, queue) == FillRow(m, font, width, next, queue[1..]);
      FillRowStops(m, font, width, next, queue[1..]);
    } else {
      FillRowStopsHere(m, font, width, row, queue);
    }
  }

  /** The inner loop stops at once: the row measures the width, or the queue is empty or starts with "". */
  lemma FillRowStopsHere(m: Metrics, font: Font, width: real, row: seq<string>, queue: seq<string>)
    requires |row| > 1 ==> RowWidth(m, font, row[..|row| - 1]) < width
    requires !(RowWidth(m, font, row) < width && queue != [] && queue[0] != "")
    ensures var f := FillRow(m, font, width, row, queue);
            var all := row + queue;
            && (|f.row| > 1 ==> RowWidth(m, font, f.row[..|f.row| - 1]) < width)
            && (f.reachedEnd ==>
                  && RowWidth(m, font, f.row) < width
                  && ((f.row == all && f.rest == [])
                      || (|f.row| < |all| && all[|f.row|] == "" && f.rest == all[|f.row| + 1..])))
            && (!f.reachedEnd ==> f.row + f.rest == all && RowWidth(m, font, f.row) >= width)
  {
    if RowWidth(m, font, row) < width && queue != [] {
      assert (row + queue)[|row|] == queue[0];
      assert (row + queue)[|row| + 1..] == queue[1..];
    }
  }

  /**
   * Each row is made greedily. It is one of:
   * a row measuring less than the width that stops where the input ends or at an empty word,
   * which is dropped; a row the next word would take to the width, that word going back into
   * the queue; or a single word at least as wide as the width, which the label stretches.
   */
  predicate GreedyRow(m: Metrics, font: Font, width: real, words: seq<string>, row: seq<string>, rest: seq<string>)
  {
    || (&& RowWidth(m, font, row) < width
        && ((row == words && rest == [])
            || (|row| < |words| && words[|row|] == "" && rest == words[|row| + 1..])))
    || (&& row + rest == words && rest != []
        && RowWidth(m, font, row) < width
        && RowWidth(m, font, row + [rest[0]]) >= width)
    || (|words| > 0 && row == [words[0]] && rest == words[1..] && RowWidth(m, font, row) >= width)
  }

  lemma {:induction false} NextRowGreedy(m: Metrics, font: Font, width: real, words: seq<string>)
    requires |words| > 0
    ensures GreedyRow(m, font, width, words, NextRow(m, font, width, words).0, NextRow(m, font, width, words).1)
  {
    assert [words[0]] + words[1..] == words;
    FillRowStops(m, font, width, [words[0]], words[1..]);
    var f := FillRow(m, font, width, [words[0]], words[1..]);
    if !f.reachedEnd && |f.row| > 1 {
      var row := f.row[..|f.row| - 1];
      assert row + [f.row[|f.row| - 1]] == f.row;
      assert row + ([f.row[|f.row| - 1]] + f.rest) == f.row + f.rest;
    }
  }

  /** Every row holds at least one word, and a row of several words measures less than the width. */
  lemma {:induction false} WrapRowsFit(m: Metrics, font: Font, width: real, words: seq<string>, i: nat)
    requires i < |Wrap(m, font, width, words)|
    ensures var row := Wrap(m, font, width, words)[i];
            |row| >= 1 && (|row| > 1 ==> RowWidth(m, font, row) < width)
    decreases |words|
  {
    var rr := NextRow(m, font, width, words);
    if i == 0 {
      NextRowGreedy(m, font, width, words);
    } else {
      WrapRowsFit(m, font, width, rr.1, i - 1);
    }
  }

  /** Without empty words nothing is lost or reordered: the rows read in order are the words. */
  lemma {:induction false} WrapKeepsWords(m: Metrics, font: Font, width: real, words: seq<string>)
    requires forall i :: 0 <= i < |words| ==> words[i] != ""
    ensures Flatten(Wrap(m, font, width, words)) == words
    decreases |words|
  {
    if words != [] {
      var rr := NextRow(m, font, width, words);
      NextRowGreedy(m, font, width, words);
      assert rr.0 + rr.1 == words;
      assert forall i :: 0 <= i < |rr.1| ==> rr.1[i] == words[|rr.0| + i];
      WrapKeepsWords(m, font, width, rr.1);
      assert Wrap(m, font, width, words)[1..] == Wrap(m, font, width, rr.1);
    }
  }

  /** A first word at least as wide as the box is a row on its own. */
  lemma {:induction false} WrapLongWordAlone(m: Metrics, font: Font, width: real, words: seq<string>)
    requires |words| > 0 && m.width(words[0], font) >= width
    ensures Wrap(m, font, width, words)[0] == [words[0]]
  {
  }

  /** The options of getTextBox that are handed on to every row label. */
  datatype BoxOptions = BoxOptions(align: Option<TextAlign>, font: Option<Font>, style: Option<Style>,
                                   alpha: Option<real>, margin: Option<real>)

  /** `{ width, height: rowHeight, ...options }` */
  function RowOptions(width: real, rowHeight: real, o: BoxOptions): LabelOptions
  {
    LabelOptions(Some(width), Some(rowHeight), o.align, o.font, o.style, o.alpha, o.margin)
  }

  function BoxFont(rowHeight: real, o: BoxOptions): Font
  {
    o.font.GetOr(SansSerif(rowHeight * 0.6))
  }

  /** The labels of the rows, in order; the first row that joins to the empty text throws. */
  function RowLabels(m: Metrics, rows: seq<seq<string>>, width: real, rowHeight: real, o: BoxOptions): (r: Result<seq<Surface>>)
    ensures r.Success? ==> |r.value| == |rows|
  {
    if rows == [] then Success([])
    else
      match GetTextLabel(m, JoinWords(rows[|rows| - 1]), RowOptions(width, rowHeight, o))
      case Failure(e) =>
        (match RowLabels(m, rows[..|rows| - 1], width, rowHeight, o)
         case Failure(e') => Failure(e')
         case Success(_) => Failure(e))
      case Success(rowLabel) =>
        (match RowLabels(m, rows[..|rows| - 1], width, rowHeight, o)
         case Failure(e') => Failure(e')
         case Success(labels) => Success(labels + [rowLabel]))
  }

  function TextBoxRows(m: Metrics, text: string, width: real, rowHeight: real, o: BoxOptions): seq<seq<string>>
  {
    Wrap(m, BoxFont(rowHeight, o), width, Split(text))
  }

  function TextBoxSpec(m: Metrics, text: string, width: real, rowHeight: real, o: BoxOptions): Result<Surface>
  {
    match RowLabels(m, TextBoxRows(m, text, width, rowHeight, o), width, rowHeight, o)
    case Failure(e) => Failure(e)
    case Success(labels) =>
      JoinPlainModes(labels, Vertical, VerticalDefaults);
      JoinSpec(labels, Vertical, VerticalDefaults)
  }

  /**
   * getTextBox: the text split at spaces, wrapped greedily into rows of at most `width` (a
   * lone word may be wider and is stretched), each row a width x rowHeight label, the rows
   * stacked top to bottom.
   */
  method GetTextBox(m: Metrics, text: string, width: real, rowHeight: real, o: BoxOptions) returns (r: Result<Surface>)
    ensures r == TextBoxSpec(m, text, width, rowHeight, o)
  {
    var font := BoxFont(rowHeight, o);
    var words := Split(text);
    var rows: seq<Surface> := [];
    ghost var lines: seq<seq<string>> := [];
    ghost var all := TextBoxRows(m, text, width, rowHeight, o);
    while |words| > 0
      invariant lines + Wrap(m, font, width, words) == all
      invariant RowLabels(m, lines, width, rowHeight, o) == Success(rows)
      decreases |words|
    {
      ghost var before := words;
      var row;
      row, words := TakeRow(m, font, width, words);
      ghost var later := Wrap(m, font, width, words);
      assert Wrap(m, font, width, before) == [row] + later;
      assert lines + [row] + later == all by {
        assert lines + ([row] + later) == lines + [row] + later;
      }
      var rowLabel := GetTextLabel(m, JoinWords(row), RowOptions(width, rowHeight, o));
      RowLabelsSnoc(m, lines, row, width, rowHeight, o);
      if rowLabel.Failure? {
        RowLabelsFailure(m, lines + [row], later, width, rowHeight, o);
        return Failure(rowLabel.error);
      }
      rows := rows + [rowLabel.value];
      lines := lines + [row];
    }
    assert lines == all;
    JoinPlainModes(rows, Vertical, VerticalDefaults);
    r := Join(rows, Vertical, VerticalDefaults);
  }

  /** One pass of the outer loop of getTextBox: fill a row, then give back the word that overflowed it. */
  method TakeRow(m: Metrics, font: Font, width: real, words: seq<string>) returns (row: seq<string>, rest: seq<string>)
    requires |words| > 0
    ensures (row, rest) == NextRow(m, font, width, words)
  {
    var reachedEnd;
    row, rest, reachedEnd := FillFirstRow(m, font, width, words);
    if !reachedEnd && |row| > 1 {
      rest := [row[|row| - 1]] + rest;
      row := row[..|row| - 1];
    }
  }

  /** The inner loop of getTextBox over the word queue: shift words onto a row while it fits. */
  method FillFirstRow(m: Metrics, font: Font, width: real, words: seq<string>)
    returns (row: seq<string>, rest: seq<string>, reachedEnd: bool)
    requires |words| > 0
    ensures RowFill(row, rest, reachedEnd) == FillRow(m, font, width, [words[0]], words[1..])
  {
    row := [words[0]];
    rest := words[1..];
    reachedEnd := false;
    while m.width(JoinWords(row), font) < width
      invariant FillRow(m, font, width, row, rest) == FillRow(m, font, width, [words[0]], words[1..])
      decreases |rest|
    {
      var next: Option<string> := if rest == [] then None else Some(rest[0]);
      rest := if rest == [] then [] else rest[1..];
      if next.Some? && next.value != "" {
        row := row + [next.value];
      } else {
        reachedEnd := true;
        break;
      }
    }
  }

  /** Labelling one more row: its label is appended, or its failure is the result. */
  lemma {:induction false} RowLabelsSnoc(m: Metrics, rows: seq<seq<string>>, row: seq<string>, width: real, rowHeight: real, o: BoxOptions)
    requires RowLabels(m, rows, width, rowHeight, o).Success?
    ensures var made := GetTextLabel(m, JoinWords(row), RowOptions(width, rowHeight, o));
            RowLabels(m, rows + [row], width, rowHeight, o)
            == if made.Success? then Success(RowLabels(m, rows, width, rowHeight, o).value + [made.value])
               else Failure(made.error)
  {
    assert (rows + [row])[..|rows|] == rows;
  }

  /** Once a row's label throws, the labels of any rows after it do not matter. */
  lemma {:induction false} RowLabelsFailure(m: Metrics, rows: seq<seq<string>>, after: seq<seq<string>>,
                                            width: real, rowHeight: real, o: BoxOptions)
    requires RowLabels(m, rows, width, rowHeight, o).Failure?
    ensures RowLabels(m, rows + after, width, rowHeight, o) == RowLabels(m, rows, width, rowHeight, o)
    decreases |after|
  {
    if after != [] {
      var front := rows + after[..|after| - 1];
      assert (rows + after)[..|rows + after| - 1] == front;
      assert after[..|after| - 1] + [after[|after| - 1]] == after;
      RowLabelsFailure(m, rows, after[..|after| - 1], width, rowHeight, o);
    } else {
      assert rows + after == rows;
    }
  }

  /** Empty text splits to one empty word, whose row cannot be labelled. */
  lemma {:induction false} TextBoxEmpty(m: Metrics, width: real, rowHeight: real, o: BoxOptions)
    ensures TextBoxSpec(m, "", width, rowHeight, o) == Failure(NoText)
  {
    assert Split("") == [""];
    var f := FillRow(m, BoxFont(rowHeight, o), width, [""], []);
    assert f.row == [""] && f.rest == [];
    assert NextRow(m, BoxFont(rowHeight, o), width, [""]) == ([""], []);
    assert Wrap(m, BoxFont(rowHeight, o), width, []) == [];
    assert TextBoxRows(m, "", width, rowHeight, o) == [[""]];
    assert JoinWords([""]) == "";
    assert [[""]][..0] == [];
    assert GetTextLabel(m, JoinWords([""]), RowOptions(width, rowHeight, o)) == Failure(NoText);
    assert RowLabels(m, [], width, rowHeight, o) == Success([]);
    assert RowLabels(m, [[""]], width, rowHeight, o) == Failure(NoText);
  }

  /** Every row's words join to a non-empty text, and its label is the one getTextLabel makes for it. */
  lemma {:induction false} RowLabelsMade(m: Metrics, rows: seq<seq<string>>, width: real, rowHeight: real, o: BoxOptions)
    requires RowLabels(m, rows, width, rowHeight, o).Success?
    ensures forall i :: 0 <= i < |rows| ==>
              && JoinWords(rows[i]) != ""
              && RowLabels(m, rows, width, rowHeight, o).value[i]
                 == GetTextLabel(m, JoinWords(rows[i]), RowOptions(width, rowHeight, o)).value
  {
    if rows != [] {
      RowLabelsMade(m, rows[..|rows| - 1], width, rowHeight, o);
    }
  }

  /** Canvases all rowHeight tall, stacked by a plain vertical join, are one row height each tall together. */
  lemma {:induction false} StackHeight(labels: seq<Surface>, rowHeight: real)
    requires |labels| > 0
    requires forall i :: 0 <= i < |labels| ==> labels[i].height == rowHeight
    ensures JoinLayout(labels, Vertical, VerticalDefaults).height == Min(Times(|labels|, rowHeight), MaxSafeInteger)
  {
    var lengths := Lengths(labels, Vertical);
    forall i | 0 <= i < |lengths|
      ensures lengths[i] == rowHeight
    {
      assert lengths[i] == Along(labels[i], Vertical);
    }
    SumConstant(lengths, rowHeight);
    TimesZero(|labels| - 1);
    GeometryShape(labels, Vertical, VerticalDefaults);
    var g := Geometry(labels, Vertical, VerticalDefaults);
    assert g.length == Min(Times(|labels|, rowHeight), MaxSafeInteger);
    LayoutAt(labels, Vertical, VerticalDefaults, 0);
    assert Along(JoinLayout(labels, Vertical, VerticalDefaults), Vertical) == g.length;
  }

  /** Canvases all width x rowHeight stacked by a plain vertical join, each at the left edge. */
  lemma {:induction false} UniformStack(labels: seq<Surface>, width: real, rowHeight: real)
    requires |labels| > 0
    requires forall i :: 0 <= i < |labels| ==> labels[i].width == width && labels[i].height == rowHeight
    ensures var s := JoinLayout(labels, Vertical, VerticalDefaults);
            && s.width == width
            && s.height == Min(Times(|labels|, rowHeight), MaxSafeInteger)
            && |s.paint| == |labels|
            && forall i :: 0 <= i < |labels| ==> s.paint[i].Draw? && s.paint[i].x == 0.0 && s.paint[i].src == labels[i]
  {
    StackHeight(labels, rowHeight);
    GeometryShape(labels, Vertical, VerticalDefaults);
    MaxOfConstant(Crosses(labels, Vertical), width);
    forall i | 0 <= i < |labels|
      ensures var op := JoinLayout(labels, Vertical, VerticalDefaults).paint[i];
              op.Draw? && op.x == 0.0 && op.src == labels[i]
    {
      LayoutAt(labels, Vertical, VerticalDefaults, i);
    }
    LayoutAt(labels, Vertical, VerticalDefaults, 0);
  }

  /**
   * A text box is `width` wide and one row height per row tall (up to the join's cap of
   * Number.MAX_SAFE_INTEGER), and draws at the left edge, in order, the label of each row's
   * words joined with spaces.
   */
  lemma {:induction false} TextBoxSize(m: Metrics, text: string, width: real, rowHeight: real, o: BoxOptions)
    requires TextBoxSpec(m, text, width, rowHeight, o).Success?
    ensures var s := TextBoxSpec(m, text, width, rowHeight, o).value;
            var rows := TextBoxRows(m, text, width, rowHeight, o);
            && s.width == width
            && s.height == Min(Times(|rows|, rowHeight), MaxSafeInteger)
            && |s.paint| == |rows|
            && forall i :: 0 <= i < |rows| ==>
                 && JoinWords(rows[i]) != ""
                 && s.paint[i].Draw? && s.paint[i].x == 0.0
                 && s.paint[i].src == GetTextLabel(m, JoinWords(rows[i]), RowOptions(width, rowHeight, o)).value
  {
    var rows := TextBoxRows(m, text, width, rowHeight, o);
    var labels := RowLabels(m, rows, width, rowHeight, o).value;
    RowLabelsMade(m, rows, width, rowHeight, o);
    assert TextBoxSpec(m, text, width, rowHeight, o) == JoinSpec(labels, Vertical, VerticalDefaults);
    JoinPlainLayout(labels, Vertical, VerticalDefaults);
    forall i | 0 <= i < |labels|
      ensures labels[i].width == width && labels[i].height == rowHeight
    {
      var made := GetTextLabel(m, JoinWords(rows[i]), RowOptions(width, rowHeight, o));
      assert labels[i] == made.value;
    }
    UniformStack(labels, width, rowHeight);
  }

  // ---------------------------------------------------------------------------
  // getTextGrid

  datatype Cell = Cell(text: string, style: Option<Style>, font: Option<Font>)

  datatype GridTextOptions = GridTextOptions(rowHeight: Option<real>, spacing: Option<real>)

  /** `cell.text || ' '`: an empty cell becomes a single space. */
  function CellText(c: Cell): (t: string)
    ensures t != "" && (c.text != "" ==> t == c.text)
  {
    if c.text == "" then " " else c.text
  }

  function CellOptions(c: Cell, o: GridTextOptions): LabelOptions
  {
    LabelOptions(None, o.rowHeight, None, c.font, c.style, None, None)
  }

  /** The label of a cell, never empty so never failing. */
  function CellLabel(m: Metrics, c: Cell, o: GridTextOptions): Surface
  {
    GetTextLabel(m, CellText(c), CellOptions(c, o)).value
  }

  /** The labels of column c for the first n rows, top to bottom. */
  function ColumnLabels(m: Metrics, cells: seq<seq<Cell>>, o: GridTextOptions, c: nat, n: nat): (ls: seq<Surface>)
    requires n <= |cells| && forall r :: 0 <= r < n ==> c < |cells[r]|
    ensures |ls| == n
  {
    if n == 0 then [] else ColumnLabels(m, cells, o, c, n - 1) + [CellLabel(m, cells[n - 1][c], o)]
  }

  lemma {:induction false} ColumnLabelAt(m: Metrics, cells: seq<seq<Cell>>, o: GridTextOptions, c: nat, n: nat, r: nat)
    requires r < n <= |cells| && forall k :: 0 <= k < n ==> c < |cells[k]|
    ensures ColumnLabels(m, cells, o, c, n)[r] == CellLabel(m, cells[r][c], o)
  {
    if r < n - 1 {
      ColumnLabelAt(m, cells, o, c, n - 1, r);
    }
  }

  predicate HasColumn(cells: seq<seq<Cell>>, c: nat)
  {
    forall r :: 0 <= r < |cells| ==> c < |cells[r]|
  }

  /** `{ align: 'top', spacing }` for joining the columns. */
  function ColumnsJoin(o: GridTextOptions): JoinOptions
  {
    JoinOptions(Start, o.spacing.GetOr(0.0), None)
  }

  /**
   * Column c: its cells' labels joined left-aligned. A row without cell c throws while the
   * labels are made, before the join.
   */
  function GridColumn(m: Metrics, cells: seq<seq<Cell>>, o: GridTextOptions, c: nat): Result<Surface>
  {
    if !HasColumn(cells, c) then Failure(MissingCell)
    else
      var labels := ColumnLabels(m, cells, o, c, |cells|);
      JoinPlainModes(labels, Vertical, VerticalDefaults);
      JoinSpec(labels, Vertical, VerticalDefaults)
  }

  /** What building each of the first k columns gives, left to right. */
  function ColumnResults(m: Metrics, cells: seq<seq<Cell>>, o: GridTextOptions, k: nat): (rs: seq<Result<Surface>>)
    ensures |rs| == k && forall c :: 0 <= c < k ==> rs[c] == GridColumn(m, cells, o, c)
  {
    seq(k, c requires 0 <= c => GridColumn(m, cells, o, c))
  }

  /** The first k columns, built left to right; the first one that throws ends the grid. */
  function GridColumns(m: Metrics, cells: seq<seq<Cell>>, o: GridTextOptions, k: nat): Result<seq<Surface>>
  {
    Collect(ColumnResults(m, cells, o, k))
  }

  /** The column count comes from the first row; a grid with no first row throws. */
  function TextGridSpec(m: Metrics, cells: seq<seq<Cell>>, o: GridTextOptions): Result<Surface>
  {
    if |cells| == 0 then Failure(MissingCell)
    else
      match GridColumns(m, cells, o, |cells[0]|)
      case Failure(e) => Failure(e)
      case Success(columns) =>
        JoinPlainModes(columns, Horizontal, ColumnsJoin(o));
        JoinSpec(columns, Horizontal, ColumnsJoin(o))
  }

  /** getTextGrid: a column of labels per column of the first row, the columns side by side. */
  method GetTextGrid(m: Metrics, cells: seq<seq<Cell>>, o: GridTextOptions) returns (r: Result<Surface>)
    ensures r == TextGridSpec(m, cells, o)
  {
    if |cells| == 0 {
      return Failure(MissingCell);
    }
    var cols := |cells[0]|;
    ghost var all := ColumnResults(m, cells, o, cols);
    var columns: seq<Surface> := [];
    for c := 0 to cols
      invariant Collect(all[..c]) == Success(columns)
    {
      var column := BuildColumn(m, cells, o, c);
      assert column == all[c];
      CollectStep(all, c);
      if column.Failure? {
        CollectFailedPrefix(all, c + 1);
        return Failure(column.error);
      }
      columns := columns + [column.value];
    }
    assert all[..cols] == all;
    JoinPlainModes(columns, Horizontal, ColumnsJoin(o));
    r := Join(columns, Horizontal, ColumnsJoin(o));
  }

  /** The inner loop of getTextGrid: the labels of column c, row by row, then their join. */
  method BuildColumn(m: Metrics, cells: seq<seq<Cell>>, o: GridTextOptions, c: nat) returns (r: Result<Surface>)
    ensures r == GridColumn(m, cells, o, c)
  {
    var canvases: seq<Surface> := [];
    for row := 0 to |cells|
      invariant forall k :: 0 <= k < row ==> c < |cells[k]|
      invariant canvases == ColumnLabels(m, cells, o, c, row)
    {
      if c >= |cells[row]| {
        return Failure(MissingCell);
      }
      var cell := cells[row][c];
      var made := GetTextLabel(m, CellText(cell), CellOptions(cell, o));
      canvases := canvases + [made.value];
    }
    JoinPlainModes(canvases, Vertical, VerticalDefaults);
    r := Join(canvases, Vertical, VerticalDefaults);
  }

  /**
   * The first k columns are built exactly when each of them can be, and then they are those
   * columns in order.
   */
  lemma GridColumnsSuccess(m: Metrics, cells: seq<seq<Cell>>, o: GridTextOptions, k: nat)
    ensures GridColumns(m, cells, o, k).Success? <==> forall c :: 0 <= c < k ==> GridColumn(m, cells, o, c).Success?
    ensures GridColumns(m, cells, o, k).Success? ==>
              forall c :: 0 <= c < k ==> GridColumns(m, cells, o, k).value[c] == GridColumn(m, cells, o, c).value
  {
    CollectSuccess(ColumnResults(m, cells, o, k));
  }

  /** Every row has cell c and every label of column c has a positive width. */
  predicate ColumnOk(m: Metrics, cells: seq<seq<Cell>>, o: GridTextOptions, c: nat)
  {
    HasColumn(cells, c) && forall r :: 0 <= r < |cells| ==> CellLabel(m, cells[r][c], o).width > 0.0
  }

  /** A column is built exactly when every row has the cell and every cell label has a positive width. */
  lemma GridColumnSuccess(m: Metrics, cells: seq<seq<Cell>>, o: GridTextOptions, c: nat)
    requires |cells| > 0
    ensures GridColumn(m, cells, o, c).Success? <==> ColumnOk(m, cells, o, c)
  {
    if HasColumn(cells, c) {
      var labels := ColumnLabels(m, cells, o, c, |cells|);
      JoinPlainModes(labels, Vertical, VerticalDefaults);
      forall r | 0 <= r < |cells|
        ensures labels[r] == CellLabel(m, cells[r][c], o)
      {
        ColumnLabelAt(m, cells, o, c, |cells|, r);
      }
    }
  }

  /** The first k columns are built exactly when each of them can be. */
  lemma ColumnsOk(m: Metrics, cells: seq<seq<Cell>>, o: GridTextOptions, k: nat)
    requires |cells| > 0
    ensures GridColumns(m, cells, o, k).Success? <==> forall c :: 0 <= c < k ==> ColumnOk(m, cells, o, c)
  {
    var rs := ColumnResults(m, cells, o, k);
    CollectSuccess(rs);
    forall c | 0 <= c < k
      ensures rs[c].Success? <==> ColumnOk(m, cells, o, c)
    {
      GridColumnSuccess(m, cells, o, c);
    }
  }

  /** A built column is one row height per row tall, up to the cap. */
  lemma {:induction false} GridColumnHeight(m: Metrics, cells: seq<seq<Cell>>, o: GridTextOptions, c: nat)
    requires |cells| > 0 && GridColumn(m, cells, o, c).Success?
    ensures GridColumn(m, cells, o, c).value.height == Min(Times(|cells|, o.rowHeight.GetOr(20.0)), MaxSafeInteger)
  {
    var labels := ColumnLabels(m, cells, o, c, |cells|);
    forall r | 0 <= r < |cells|
      ensures labels[r].height == o.rowHeight.GetOr(20.0)
    {
      ColumnLabelAt(m, cells, o, c, |cells|, r);
    }
    JoinPlainLayout(labels, Vertical, VerticalDefaults);
    StackHeight(labels, o.rowHeight.GetOr(20.0));
  }

  /**
   * A text grid is made exactly when there is a first row with at least one cell, no row is
   * shorter than it, every cell label has a positive width and the row height is positive;
   * otherwise getTextGrid throws.
   */
  lemma TextGridSuccess(m: Metrics, cells: seq<seq<Cell>>, o: GridTextOptions)
    ensures TextGridSpec(m, cells, o).Success? <==>
              && |cells| > 0 && |cells[0]| > 0
              && (forall r :: 0 <= r < |cells| ==> |cells[r]| >= |cells[0]|)
              && (forall r, c :: 0 <= r < |cells| && 0 <= c < |cells[0]| ==> CellLabel(m, cells[r][c], o).width > 0.0)
              && o.rowHeight.GetOr(20.0) > 0.0
  {
    if |cells| > 0 {
      GridColumnsMade(m, cells, o);
      if GridColumns(m, cells, o, |cells[0]|).Success? {
        GridJoinMade(m, cells, o);
      }
    }
  }

  /** All the columns are built exactly when no row is short and no cell label is empty. */
  lemma GridColumnsMade(m: Metrics, cells: seq<seq<Cell>>, o: GridTextOptions)
    requires |cells| > 0
    ensures GridColumns(m, cells, o, |cells[0]|).Success? <==>
              && (forall r :: 0 <= r < |cells| ==> |cells[r]| >= |cells[0]|)
              && (forall r, c :: 0 <= r < |cells| && 0 <= c < |cells[0]| ==> CellLabel(m, cells[r][c], o).width > 0.0)
  {
    var k := |cells[0]|;
    ColumnsOk(m, cells, o, k);
    if GridColumns(m, cells, o, k).Success? {
      forall r | 0 <= r < |cells|
        ensures |cells[r]| >= k
      {
        if k > 0 {
          assert ColumnOk(m, cells, o, k - 1);
        }
      }
      forall r, c | 0 <= r < |cells| && 0 <= c < k
        ensures CellLabel(m, cells[r][c], o).width > 0.0
      {
        assert ColumnOk(m, cells, o, c);
      }
    } else {
      var c :| 0 <= c < k && !ColumnOk(m, cells, o, c);
      if HasColumn(cells, c) {
        var r :| 0 <= r < |cells| && CellLabel(m, cells[r][c], o).width <= 0.0;
      } else {
        var r :| 0 <= r < |cells| && c >= |cells[r]|;
      }
    }
  }

  /** Once all the columns are built, the grid is their join. */
  lemma TextGridIsJoin(m: Metrics, cells: seq<seq<Cell>>, o: GridTextOptions)
    requires |cells| > 0 && GridColumns(m, cells, o, |cells[0]|).Success?
    ensures TextGridSpec(m, cells, o) == JoinSpec(GridColumns(m, cells, o, |cells[0]|).value, Horizontal, ColumnsJoin(o))
  {
  }

  /** Every built column has the same height: one row height per row, up to the cap. */
  lemma ColumnsHeight(m: Metrics, cells: seq<seq<Cell>>, o: GridTextOptions, k: nat)
    requires |cells| > 0 && GridColumns(m, cells, o, k).Success?
    ensures forall c :: 0 <= c < k ==>
              GridColumns(m, cells, o, k).value[c].height == Min(Times(|cells|, o.rowHeight.GetOr(20.0)), MaxSafeInteger)
  {
    GridColumnsSuccess(m, cells, o, k);
    forall c | 0 <= c < k
      ensures GridColumns(m, cells, o, k).value[c].height == Min(Times(|cells|, o.rowHeight.GetOr(20.0)), MaxSafeInteger)
    {
      GridColumnHeight(m, cells, o, c);
    }
  }

  /** Built columns are joined exactly when there is at least one and the row height is positive. */
  lemma GridJoinMade(m: Metrics, cells: seq<seq<Cell>>, o: GridTextOptions)
    requires |cells| > 0 && GridColumns(m, cells, o, |cells[0]|).Success?
    ensures TextGridSpec(m, cells, o).Success? <==> |cells[0]| > 0 && o.rowHeight.GetOr(20.0) > 0.0
  {
    var k := |cells[0]|;
    var columns := GridColumns(m, cells, o, k).value;
    TextGridIsJoin(m, cells, o);
    JoinPlainModes(columns, Horizontal, ColumnsJoin(o));
    ColumnsHeight(m, cells, o, k);
    TimesPositive(|cells|, o.rowHeight.GetOr(20.0));
    if k > 0 {
      assert Across(columns[0], Horizontal) == columns[0].height;
      if o.rowHeight.GetOr(20.0) > 0.0 {
        forall c | 0 <= c < k
          ensures Across(columns[c], Horizontal) > 0.0
        {
          assert Across(columns[c], Horizontal) == columns[c].height;
        }
      }
    }
  }

  /** Column c of a made grid is drawn at the top edge, as the column built for it. */
  lemma GridPlacesColumn(m: Metrics, cells: seq<seq<Cell>>, o: GridTextOptions, c: nat)
    requires |cells| > 0 && c < |cells[0]| && TextGridSpec(m, cells, o).Success?
    ensures |TextGridSpec(m, cells, o).value.paint| == |cells[0]|
    ensures TextGridSpec(m, cells, o).value.paint[c].Draw?
    ensures TextGridSpec(m, cells, o).value.paint[c].y == 0.0
    ensures GridColumn(m, cells, o, c).Success?
    ensures TextGridSpec(m, cells, o).value.paint[c].src == GridColumn(m, cells, o, c).value
  {
    var k := |cells[0]|;
    var columns := GridColumns(m, cells, o, k).value;
    GridColumnsSuccess(m, cells, o, k);
    JoinPlainLayout(columns, Horizontal, ColumnsJoin(o));
    LayoutAt(columns, Horizontal, ColumnsJoin(o), c);
  }

  /**
   * In a built column, cell r is drawn at the left edge as the label of its text (a space when
   * empty), and the column is as wide as its widest cell.
   */
  lemma ColumnPlacesCell(m: Metrics, cells: seq<seq<Cell>>, o: GridTextOptions, c: nat, r: nat)
    requires r < |cells| && GridColumn(m, cells, o, c).Success?
    ensures HasColumn(cells, c)
    ensures |GridColumn(m, cells, o, c).value.paint| == |cells|
    ensures GridColumn(m, cells, o, c).value.paint[r].Draw?
    ensures GridColumn(m, cells, o, c).value.paint[r].x == 0.0
    ensures GridColumn(m, cells, o, c).value.paint[r].src == CellLabel(m, cells[r][c], o)
    ensures CellLabel(m, cells[r][c], o).width <= GridColumn(m, cells, o, c).value.width
  {
    var labels := ColumnLabels(m, cells, o, c, |cells|);
    JoinPlainLayout(labels, Vertical, VerticalDefaults);
    LayoutAt(labels, Vertical, VerticalDefaults, r);
    JoinAlignedInside(labels, Vertical, VerticalDefaults, r);
    ColumnLabelAt(m, cells, o, c, |cells|, r);
  }
}
