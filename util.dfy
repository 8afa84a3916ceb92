/**
 * The raster layout primitives of src/util.ts: resizing, joining along an axis, even grids,
 * margins, masks, outlines and drop shadows, superimposition, rotation and cropping.
 * Every primitive returns a new surface; only the placement arithmetic is modelled,
 * the pixels are whatever the native canvas library makes of the paint log.
 */
module Util {
  import opened JsMath
  import opened Raster

  // ---------------------------------------------------------------------------
  // resize

  datatype ResizeOptions = ResizeOptions(width: Option<real>, height: Option<real>)

  /**
   * With one dimension given, the other is inferred by dividing by the image's own
   * matching dimension; a zero there would make the source compute a non-finite size.
   */
  predicate ResizeDefined(image: Surface, o: ResizeOptions)
  {
    && (o.width.None? && o.height.Some? && o.height.value > 0.0 ==> image.height != 0.0)
    && (o.height.None? && o.width.Some? && o.width.value > 0.0 ==> image.width != 0.0)
  }

  predicate ResizeAccepted(o: ResizeOptions)
  {
    && (o.width.Some? || o.height.Some?)
    && (o.width.Some? ==> o.width.value > 0.0)
    && (o.height.Some? ==> o.height.value > 0.0)
  }

  function Resize(image: Surface, o: ResizeOptions): (r: Result<Surface>)
    requires ResizeDefined(image, o)
    ensures r.Success? <==> ResizeAccepted(o)
    ensures o.width.None? && o.height.None? ==> r == Failure(MissingDimensions)
    ensures (o.width.Some? || o.height.Some?) && o.width.Some? && o.width.value <= 0.0 ==> r == Failure(NonPositiveWidth)
    ensures ((o.width.Some? || o.height.Some?) && (o.width.Some? ==> o.width.value > 0.0)
             && o.height.Some? && o.height.value <= 0.0) ==> r == Failure(NonPositiveHeight)
    // a given dimension is taken as is
    ensures r.Success? && o.width.Some? ==> r.value.width == o.width.value
    ensures r.Success? && o.height.Some? ==> r.value.height == o.height.value
    // identity shortcut: nothing to do returns the input itself
    ensures r.Success? && r.value.width == image.width && r.value.height == image.height ==> r.value == image
    ensures r.Success? && r.value != image ==>
              r.value.paint == [DrawScaled(image, 0.0, 0.0, r.value.width, r.value.height)]
  {
    if o.width.None? && o.height.None? then Failure(MissingDimensions)
    else if o.width.Some? && o.width.value <= 0.0 then Failure(NonPositiveWidth)
    else if o.height.Some? && o.height.value <= 0.0 then Failure(NonPositiveHeight)
    else
      var w := if o.width.Some? then o.width.value else o.height.value * image.width / image.height;
      var h := if o.height.Some? then o.height.value else o.width.value * image.height / image.width;
      if w == image.width && h == image.height then Success(image)
      else Success(Surface(w, h, [DrawScaled(image, 0.0, 0.0, w, h)]))
  }

  /** With one dimension given, the other follows the image's aspect ratio. */
  lemma ResizeKeepsAspect(image: Surface, o: ResizeOptions)
    requires ResizeDefined(image, o) && Resize(image, o).Success?
    requires o.width.None? || o.height.None?
    ensures Resize(image, o).value.width * image.height == Resize(image, o).value.height * image.width
  {
  }

  // ---------------------------------------------------------------------------
  // joinCanvasesHorizontal / joinCanvasesVertical
  //
  // The two functions are the same algorithm along different axes; Join is written once
  // for an Axis. Along the axis the canvases follow one another; across it they are aligned.

  datatype Axis = Horizontal | Vertical

  /**
   * Horizontal joins: top | bottom | center | resize-to-first | resize-to-shortest | resize-to-tallest.
   * Vertical joins:   left | right | center | resize-to-first | resize-to-thinnest | resize-to-widest.
   */
  datatype JoinAlign = Start | End | Middle | ResizeToFirst | ResizeToMin | ResizeToMax
  {
    predicate IsResize()
    {
      ResizeToFirst? || ResizeToMin? || ResizeToMax?
    }
  }

  /** align, spacing (default 0) and maxWidth / maxHeight (default Number.MAX_SAFE_INTEGER) */
  datatype JoinOptions = JoinOptions(align: JoinAlign, spacing: real, maxLength: Option<real>)

  /** joinCanvasesVertical's defaults: left-aligned, no spacing, no cap. */
  const VerticalDefaults := JoinOptions(Start, 0.0, None)

  function Along(s: Surface, axis: Axis): real
  {
    if axis.Horizontal? then s.width else s.height
  }

  function Across(s: Surface, axis: Axis): real
  {
    if axis.Horizontal? then s.height else s.width
  }

  function Lengths(ss: seq<Surface>, axis: Axis): (r: seq<real>)
    ensures |r| == |ss| && forall i :: 0 <= i < |ss| ==> r[i] == Along(ss[i], axis)
  {
    if ss == [] then [] else Lengths(ss[..|ss| - 1], axis) + [Along(ss[|ss| - 1], axis)]
  }

  function Crosses(ss: seq<Surface>, axis: Axis): (r: seq<real>)
    ensures |r| == |ss| && forall i :: 0 <= i < |ss| ==> r[i] == Across(ss[i], axis)
  {
    if ss == [] then [] else Crosses(ss[..|ss| - 1], axis) + [Across(ss[|ss| - 1], axis)]
  }

  /** The cross size every canvas is resized to in the resize-to-* modes. */
  function TargetCross(cs: seq<Surface>, axis: Axis, align: JoinAlign): (t: Option<real>)
    requires |cs| > 0
    ensures t.Some? <==> align.IsResize()
  {
    match align
    case ResizeToFirst => Some(Across(cs[0], axis))
    case ResizeToMin => Some(MinOf(Crosses(cs, axis)))
    case ResizeToMax => Some(MaxOf(Crosses(cs, axis)))
    case _ => None
  }

  /** resize(c, { height: t }) for a horizontal join, resize(c, { width: t }) for a vertical one. */
  function CrossResize(axis: Axis, t: real): ResizeOptions
  {
    if axis.Horizontal? then ResizeOptions(None, Some(t)) else ResizeOptions(Some(t), None)
  }

  /** Resizing across the axis to t succeeds, gives cross size t, and is the identity when t is the current one. */
  lemma ResizeCross(s: Surface, axis: Axis, t: real)
    requires t > 0.0 && Across(s, axis) != 0.0
    ensures ResizeDefined(s, CrossResize(axis, t)) && Resize(s, CrossResize(axis, t)).Success?
    ensures Across(Resize(s, CrossResize(axis, t)).value, axis) == t
    ensures t == Across(s, axis) ==> Resize(s, CrossResize(axis, t)).value == s
  {
    if axis.Horizontal? {
      ResizeHeightTo(s, t);
    } else {
      ResizeWidthTo(s, t);
    }
  }

  /** resize(s, { height: t }): made, t tall, and s itself when t is its height. */
  lemma ResizeHeightTo(s: Surface, t: real)
    requires t > 0.0 && s.height != 0.0
    ensures var o := ResizeOptions(None, Some(t));
            && ResizeDefined(s, o) && Resize(s, o).Success? && Resize(s, o).value.height == t
            && (t == s.height ==> Resize(s, o).value == s)
  {
    if t == s.height {
      SameRatio(t, s.width, s.height);
    }
  }

  /** resize(s, { width: t }): made, t wide, and s itself when t is its width. */
  lemma ResizeWidthTo(s: Surface, t: real)
    requires t > 0.0 && s.width != 0.0
    ensures var o := ResizeOptions(Some(t), None);
            && ResizeDefined(s, o) && Resize(s, o).Success? && Resize(s, o).value.width == t
            && (t == s.width ==> Resize(s, o).value == s)
  {
    if t == s.width {
      SameRatio(t, s.height, s.width);
    }
  }

  /** Inferring a dimension at the current size of the other changes nothing: t · a / b == a when t == b. */
  lemma SameRatio(t: real, a: real, b: real)
    requires b != 0.0 && t == b
    ensures t * a / b == a
  {
  }

  predicate ResizeAllDefined(cs: seq<Surface>, axis: Axis, target: Option<real>)
  {
    target.Some? && target.value > 0.0 ==> forall i :: 0 <= i < |cs| ==> Across(cs[i], axis) != 0.0
  }

  predicate JoinDefined(cs: seq<Surface>, axis: Axis, align: JoinAlign)
  {
    |cs| > 0 ==> ResizeAllDefined(cs, axis, TargetCross(cs, axis, align))
  }

  /** canvases.map(c => resize(c, ...)): the first failing resize throws. */
  function ResizeAll(cs: seq<Surface>, axis: Axis, target: Option<real>): (r: Result<seq<Surface>>)
    requires ResizeAllDefined(cs, axis, target)
    ensures r.Success? ==> |r.value| == |cs|
    ensures r.Success? <==> forall i :: 0 <= i < |cs| ==> target.GetOr(Across(cs[i], axis)) > 0.0
    ensures r.Success? ==> forall i :: 0 <= i < |cs| ==>
              ResizeDefined(cs[i], CrossResize(axis, target.GetOr(Across(cs[i], axis)))) &&
              Resize(cs[i], CrossResize(axis, target.GetOr(Across(cs[i], axis)))) == Success(r.value[i])
    decreases |cs|
  {
    if cs == [] then Success([])
    else
      match Resize(cs[0], CrossResize(axis, target.GetOr(Across(cs[0], axis))))
      case Failure(e) => Failure(e)
      case Success(c) =>
        match ResizeAll(cs[1..], axis, target)
        case Failure(e) => Failure(e)
        case Success(rest) =>
          assert forall i :: 1 <= i < |cs| ==> cs[i] == cs[1..][i - 1];
          Success([c] + rest)
  }

  /** Where a canvas of cross size c sits across a composite of cross size `cross`. */
  function CrossOffset(align: JoinAlign, cross: real, c: real): real
  {
    match align
    case End => cross - c
    case Middle => (cross - c) / 2.0
    case _ => 0.0
  }

  function PlaceAt(s: Surface, axis: Axis, along: real, across: real): Op
  {
    if axis.Horizontal? then Draw(s, along, across) else Draw(s, across, along)
  }

  /** Position along the axis, and across it, of a Draw operation. */
  function AlongPos(op: Op, axis: Axis): real
    requires op.Draw?
  {
    if axis.Horizontal? then op.x else op.y
  }

  function AcrossPos(op: Op, axis: Axis): real
    requires op.Draw?
  {
    if axis.Horizontal? then op.y else op.x
  }

  function Sized(axis: Axis, length: real, cross: real, paint: seq<Op>): (s: Surface)
    ensures Along(s, axis) == length && Across(s, axis) == cross && s.paint == paint
  {
    if axis.Horizontal? then Surface(length, cross, paint) else Surface(cross, length, paint)
  }

  /** Where canvas i starts along the axis: each canvas advances the next by its length plus `step`. */
  function AlongStart(rs: seq<Surface>, axis: Axis, step: real, i: nat): real
    requires i <= |rs|
  {
    if i == 0 then 0.0 else AlongStart(rs, axis, step, i - 1) + Along(rs[i - 1], axis) + step
  }

  /** Canvas i starts after the lengths of the canvases before it and i steps. */
  lemma {:induction false} AlongStartClosed(rs: seq<Surface>, axis: Axis, step: real, i: nat)
    requires i <= |rs|
    ensures AlongStart(rs, axis, step, i) == Sum(Lengths(rs[..i], axis)) + Times(i, step)
  {
    if i > 0 {
      AlongStartClosed(rs, axis, step, i - 1);
      SumSplit(Lengths(rs[..i], axis), i - 1);
      assert Lengths(rs[..i], axis)[..i - 1] == Lengths(rs[..i - 1], axis);
    } else {
      assert Lengths(rs[..0], axis) == [];
    }
  }

  /** The draws of the join: each canvas at its start along the axis, aligned across it. */
  function Placements(rs: seq<Surface>, axis: Axis, align: JoinAlign, cross: real, step: real, n: nat): (ops: seq<Op>)
    requires n <= |rs|
    ensures |ops| == n && forall i :: 0 <= i < n ==> ops[i].Draw?
  {
    if n == 0 then []
    else Placements(rs, axis, align, cross, step, n - 1)
         + [PlaceAt(rs[n - 1], axis, AlongStart(rs, axis, step, n - 1), CrossOffset(align, cross, Across(rs[n - 1], axis)))]
  }

  /** Draw i of the join places canvas i at its start along the axis, aligned across it. */
  lemma {:induction false} PlacementAt(rs: seq<Surface>, axis: Axis, align: JoinAlign, cross: real, step: real, n: nat, i: nat)
    requires i < n <= |rs|
    ensures Placements(rs, axis, align, cross, step, n)[i]
            == PlaceAt(rs[i], axis, AlongStart(rs, axis, step, i), CrossOffset(align, cross, Across(rs[i], axis)))
  {
    if i < n - 1 {
      PlacementAt(rs, axis, align, cross, step, n - 1, i);
    }
  }

  /** IDEAL, the capped length, the per-canvas loss and the cross size of a join. */
  datatype JoinGeometry = JoinGeometry(ideal: real, cap: real, length: real, lost: nat, cross: real)

  function Geometry(rs: seq<Surface>, axis: Axis, o: JoinOptions): JoinGeometry
    requires |rs| > 0
  {
    var n := |rs|;
    var ideal := Sum(Lengths(rs, axis)) + Times(n - 1, o.spacing);
    var cap := o.maxLength.GetOr(MaxSafeInteger);
    JoinGeometry(ideal, cap, Min(ideal, cap), LostPerGap(Max(0.0, ideal - cap), Gaps(n)),
                 MaxOf(Crosses(rs, axis)))
  }

  /** Math.max(1, n - 1): the number of gaps that share the loss. */
  function Gaps(n: nat): (k: nat)
    ensures k >= 1 && k as real == Max(1.0, (n - 1) as real)
  {
    if n > 1 then n - 1 else 1
  }

  /**
   * Math.ceil(overflow / gaps), computed by counting whole gaps until the overflow is covered
   * (LostPerGapIsCeil shows the two agree). Counting keeps a quotient out of every proof that
   * unfolds a join.
   */
  function LostPerGap(overflow: real, gaps: nat): nat
    requires gaps >= 1
  {
    CoverFrom(overflow, gaps, 0, 0.0)
  }

  function CoverFrom(overflow: real, gaps: nat, k: nat, covered: real): nat
    requires gaps >= 1
    decreases if covered >= overflow then 0 else (overflow - covered).Floor + 1
  {
    if covered >= overflow then k else CoverFrom(overflow, gaps, k + 1, covered + gaps as real)
  }

  lemma {:induction false} CoverFromCovers(overflow: real, gaps: nat, k: nat, covered: real)
    requires gaps >= 1 && covered == Times(k, gaps as real)
    requires k == 0 || covered - gaps as real < overflow
    ensures var r := CoverFrom(overflow, gaps, k, covered);
            && Times(r, gaps as real) >= overflow
            && (r == 0 || Times(r - 1, gaps as real) < overflow)
    decreases if covered >= overflow then 0 else (overflow - covered).Floor + 1
  {
    if covered < overflow {
      CoverFromCovers(overflow, gaps, k + 1, covered + gaps as real);
    }
  }

  /** The counted loss, taken gaps times, covers the overflow; without an overflow it is 0. */
  lemma LostCovers(overflow: real, gaps: nat)
    requires gaps >= 1
    ensures Times(LostPerGap(overflow, gaps), gaps as real) >= overflow
    ensures overflow <= 0.0 ==> LostPerGap(overflow, gaps) == 0
  {
    CoverFromCovers(overflow, gaps, 0, 0.0);
  }

  /** The counted loss is Math.ceil(overflow / gaps) for a non-negative overflow. */
  lemma LostPerGapIsCeil(overflow: real, gaps: nat)
    requires gaps >= 1 && overflow >= 0.0
    ensures LostPerGap(overflow, gaps) == Ceil(overflow / gaps as real)
  {
    var r := LostPerGap(overflow, gaps);
    var g := gaps as real;
    CoverFromCovers(overflow, gaps, 0, 0.0);
    var n := CeilCovers(overflow, g);
    CoverAtMost(r, n, g, overflow);
    CoverAtMost(n, r, g, overflow);
  }

  /** Math.ceil(v / g) is a count whose multiple of g covers v while its predecessor's does not. */
  lemma CeilCovers(v: real, g: real) returns (n: nat)
    requires g > 0.0 && v >= 0.0
    ensures n == Ceil(v / g)
    ensures Times(n, g) >= v && (n == 0 || Times(n - 1, g) < v)
  {
    var q := Ceil(v / g);
    ScaleBounds(q as real - 1.0, v / g, q as real, g, v);
    n := q;
    TimesIsProduct(n, g);
    if n > 0 {
      TimesIsProduct(n - 1, g);
      assert (q as real - 1.0) * g == (n - 1) as real * g;
    }
  }

  /** A count whose multiple covers v is at least any count whose predecessor's multiple does not. */
  lemma CoverAtMost(r: nat, q: nat, g: real, v: real)
    requires g > 0.0 && Times(r, g) >= v && (q == 0 || Times(q - 1, g) < v)
    ensures q <= r
  {
    if q > 0 {
      TimesLess(q - 1, r, g);
    }
  }

  /** Multiples of a positive amount are strictly ordered only as their counts are. */
  lemma TimesLess(a: nat, b: nat, x: real)
    requires x > 0.0 && Times(a, x) < Times(b, x)
    ensures a < b
  {
    if b <= a {
      TimesMono(b, a, x);
    }
  }

  /** Unfolds Geometry for the proofs that use it; JoinUncapped and JoinCapped state the join's size. */
  lemma GeometryShape(rs: seq<Surface>, axis: Axis, o: JoinOptions)
    requires |rs| > 0
    ensures var g := Geometry(rs, axis, o);
            && g.ideal == Sum(Lengths(rs, axis)) + Times(|rs| - 1, o.spacing)
            && g.cap == o.maxLength.GetOr(MaxSafeInteger)
            && g.length == Min(g.ideal, g.cap) && g.length <= g.cap
            && g.cross == MaxOf(Crosses(rs, axis))
  {
  }

  /** The per-gap loss covers the overflow past the cap, and there is none without an overflow. */
  lemma GeometryLostCovers(rs: seq<Surface>, axis: Axis, o: JoinOptions)
    requires |rs| > 0
    ensures var g := Geometry(rs, axis, o);
            && Times(g.lost, Gaps(|rs|) as real) >= Max(0.0, g.ideal - g.cap)
            && (g.ideal <= g.cap ==> g.lost == 0)
  {
    var g := Geometry(rs, axis, o);
    LostCovers(Max(0.0, g.ideal - g.cap), Gaps(|rs|));
  }

  /** LOST = Math.ceil(Math.max(0, IDEAL - MAX) / Math.max(1, n - 1)). */
  lemma GeometryLost(rs: seq<Surface>, axis: Axis, o: JoinOptions)
    requires |rs| > 0
    ensures var g := Geometry(rs, axis, o);
            g.lost == Ceil(Max(0.0, g.ideal - g.cap) / Max(1.0, (|rs| - 1) as real))
  {
    var g := Geometry(rs, axis, o);
    LostPerGapIsCeil(Max(0.0, g.ideal - g.cap), Gaps(|rs|));
  }

  /** How far each canvas starts after the end of the previous one: the spacing less the per-gap loss. */
  function JoinStep(rs: seq<Surface>, axis: Axis, o: JoinOptions): real
    requires |rs| > 0
  {
    o.spacing - Geometry(rs, axis, o).lost as real
  }

  /** The composite made from the already resized canvases. */
  function JoinLayout(rs: seq<Surface>, axis: Axis, o: JoinOptions): Surface
    requires |rs| > 0
  {
    var g := Geometry(rs, axis, o);
    Sized(axis, g.length, g.cross, Placements(rs, axis, o.align, g.cross, JoinStep(rs, axis, o), |rs|))
  }

  /** The i-th draw of a join, spelled out. */
  lemma LayoutAt(rs: seq<Surface>, axis: Axis, o: JoinOptions, i: nat)
    requires i < |rs|
    ensures var g := Geometry(rs, axis, o);
            && Along(JoinLayout(rs, axis, o), axis) == g.length
            && Across(JoinLayout(rs, axis, o), axis) == g.cross
            && |JoinLayout(rs, axis, o).paint| == |rs|
            && JoinLayout(rs, axis, o).paint[i]
               == PlaceAt(rs[i], axis, AlongStart(rs, axis, JoinStep(rs, axis, o), i),
                          CrossOffset(o.align, g.cross, Across(rs[i], axis)))
            && JoinLayout(rs, axis, o).paint[i].Draw?
            && JoinLayout(rs, axis, o).paint[i].src == rs[i]
            && AlongPos(JoinLayout(rs, axis, o).paint[i], axis) == AlongStart(rs, axis, JoinStep(rs, axis, o), i)
            && AcrossPos(JoinLayout(rs, axis, o).paint[i], axis) == CrossOffset(o.align, g.cross, Across(rs[i], axis))
  {
    var g := Geometry(rs, axis, o);
    PlacementAt(rs, axis, o.align, g.cross, JoinStep(rs, axis, o), |rs|, i);
  }

  function JoinSpec(cs: seq<Surface>, axis: Axis, o: JoinOptions): Result<Surface>
    requires JoinDefined(cs, axis, o.align)
  {
    if |cs| == 0 then Failure(EmptyList)
    else
      match ResizeAll(cs, axis, TargetCross(cs, axis, o.align))
      case Failure(e) => Failure(e)
      case Success(rs) => Success(JoinLayout(rs, axis, o))
  }

  /** joinCanvasesHorizontal (axis Horizontal) and joinCanvasesVertical (axis Vertical). */
  method Join(canvases: seq<Surface>, axis: Axis, o: JoinOptions) returns (r: Result<Surface>)
    requires JoinDefined(canvases, axis, o.align)
    ensures r == JoinSpec(canvases, axis, o)
  {
    if |canvases| == 0 {
      return Failure(EmptyList);
    }
    var resized := ResizeAll(canvases, axis, TargetCross(canvases, axis, o.align));
    if resized.Failure? {
      return Failure(resized.error);
    }
    var rs := resized.value;
    var g := Geometry(rs, axis, o);
    var composite := Compose(rs, axis, o.align, g.length, g.cross, JoinStep(rs, axis, o));
    r := Success(composite);
  }

  /**
   * The drawing loop of a join over the already resized canvases: a canvas `length` by `cross`
   * (along and across the axis) with each canvas drawn `step` after the end of the previous one.
   */
  method Compose(rs: seq<Surface>, axis: Axis, align: JoinAlign, length: real, cross: real, step: real)
    returns (s: Surface)
    ensures s == Sized(axis, length, cross, Placements(rs, axis, align, cross, step, |rs|))
  {
    var blank := Sized(axis, length, cross, []);
    var composite := new Canvas(blank.width, blank.height);
    var base := 0.0;
    for i := 0 to |rs|
      invariant composite.paint == Placements(rs, axis, align, cross, step, i)
      invariant base == AlongStart(rs, axis, step, i)
    {
      var c := rs[i];
      composite.Paint(PlaceAt(c, axis, base, CrossOffset(align, cross, Across(c, axis))));
      base := base + Along(c, axis) + step;
    }
    s := Sized(axis, length, cross, composite.paint);
  }

  lemma {:induction false} SumSplit(xs: seq<real>, k: nat)
    requires k < |xs|
    ensures Sum(xs[..k + 1]) == Sum(xs[..k]) + xs[k]
  {
    assert xs[..k + 1][..k] == xs[..k];
  }

  /**
   * Without overflow past the cap the composite is as long as all canvases plus the
   * spacing between them, nothing is lost, and it is as thick as the thickest canvas.
   */
  lemma JoinUncapped(rs: seq<Surface>, axis: Axis, o: JoinOptions)
    requires |rs| > 0
    requires Geometry(rs, axis, o).ideal <= Geometry(rs, axis, o).cap
    ensures Geometry(rs, axis, o).lost == 0
    ensures Along(JoinLayout(rs, axis, o), axis) == Sum(Lengths(rs, axis)) + Times(|rs| - 1, o.spacing)
    ensures Across(JoinLayout(rs, axis, o), axis) == MaxOf(Crosses(rs, axis))
  {
    var g := Geometry(rs, axis, o);
    assert g.lost == 0 by {
      GeometryLostCovers(rs, axis, o);
    }
    assert Along(JoinLayout(rs, axis, o), axis) == g.length && Across(JoinLayout(rs, axis, o), axis) == g.cross;
    GeometryShape(rs, axis, o);
  }

  /** Without overflow each canvas starts at the lengths before it plus the spacing between them. */
  lemma JoinUncappedStart(rs: seq<Surface>, axis: Axis, o: JoinOptions, i: nat)
    requires 0 <= i < |rs|
    requires Geometry(rs, axis, o).ideal <= Geometry(rs, axis, o).cap
    ensures AlongPos(JoinLayout(rs, axis, o).paint[i], axis) == Sum(Lengths(rs[..i], axis)) + Times(i, o.spacing)
  {
    var g := Geometry(rs, axis, o);
    assert g.lost == 0 by {
      GeometryLostCovers(rs, axis, o);
    }
    assert AlongPos(JoinLayout(rs, axis, o).paint[i], axis) == AlongStart(rs, axis, JoinStep(rs, axis, o), i) by {
      LayoutAt(rs, axis, o, i);
    }
    assert AlongStart(rs, axis, JoinStep(rs, axis, o), i) == Sum(Lengths(rs[..i], axis)) + Times(i, o.spacing) by {
      assert JoinStep(rs, axis, o) == o.spacing;
      AlongStartClosed(rs, axis, o.spacing, i);
    }
  }

  /**
   * Under a cap with two or more canvases the composite is min(ideal, cap) long, and the
   * far edge of the last canvas stays inside it: the per-gap loss absorbs the overflow.
   */
  lemma JoinCapped(rs: seq<Surface>, axis: Axis, o: JoinOptions)
    requires |rs| >= 2
    ensures var g := Geometry(rs, axis, o);
            && Along(JoinLayout(rs, axis, o), axis) == Min(g.ideal, g.cap)
            && var last := JoinLayout(rs, axis, o).paint[|rs| - 1];
               last.Draw? && AlongPos(last, axis) + Along(last.src, axis) <= Along(JoinLayout(rs, axis, o), axis)
  {
    var g := Geometry(rs, axis, o);
    var n := |rs|;
    var k := n - 1;
    var last := JoinLayout(rs, axis, o).paint[k];
    assert last.Draw? && AlongPos(last, axis) == AlongStart(rs, axis, JoinStep(rs, axis, o), k) && last.src == rs[k]
           && Along(JoinLayout(rs, axis, o), axis) == g.length by {
      LayoutAt(rs, axis, o, k);
    }
    var sumAll := Sum(Lengths(rs, axis));
    var edge := AlongStart(rs, axis, JoinStep(rs, axis, o), k) + Along(rs[k], axis);
    assert edge == sumAll + Times(k, JoinStep(rs, axis, o)) by {
      FarEdge(rs, axis, JoinStep(rs, axis, o));
    }
    assert g.ideal == sumAll + Times(k, o.spacing) && g.length == Min(g.ideal, g.cap) by {
      GeometryShape(rs, axis, o);
    }
    assert Times(g.lost, k as real) >= Max(0.0, g.ideal - g.cap) by {
      GeometryLostCovers(rs, axis, o);
      assert Gaps(n) == k;
    }
    FarEdgeBound(sumAll, o.spacing, g.lost, JoinStep(rs, axis, o), k, g.cap, g.ideal, edge);
  }

  /** The far edge of the last canvas: all the lengths plus a step for each gap. */
  lemma FarEdge(rs: seq<Surface>, axis: Axis, step: real)
    requires |rs| > 0
    ensures AlongStart(rs, axis, step, |rs| - 1) + Along(rs[|rs| - 1], axis) == Sum(Lengths(rs, axis)) + Times(|rs| - 1, step)
  {
    var k := |rs| - 1;
    AlongStartClosed(rs, axis, step, k);
    SumSplit(Lengths(rs, axis), k);
    assert Lengths(rs, axis)[..k] == Lengths(rs[..k], axis);
    assert Lengths(rs, axis)[..k + 1] == Lengths(rs, axis);
  }

  /** The arithmetic of the cap: k gaps each shortened by `lost` absorb the overflow. */
  lemma FarEdgeBound(total: real, spacing: real, lost: nat, step: real, k: nat, cap: real, ideal: real, edge: real)
    requires ideal == total + Times(k, spacing) && Times(lost, k as real) >= Max(0.0, ideal - cap)
    requires step == spacing - lost as real && edge == total + Times(k, step)
    ensures edge <= Min(ideal, cap)
  {
    TimesIsProduct(k, spacing);
    TimesIsProduct(lost, k as real);
    TimesIsProduct(k, step);
    assert k as real * (spacing - lost as real) == k as real * spacing - lost as real * k as real;
  }

  /** In every alignment mode each placed canvas lies across the composite within [0, cross]. */
  lemma JoinAlignedInside(rs: seq<Surface>, axis: Axis, o: JoinOptions, i: nat)
    requires 0 <= i < |rs|
    ensures var op := JoinLayout(rs, axis, o).paint[i];
            && op.Draw? && op.src == rs[i]
            && 0.0 <= AcrossPos(op, axis)
            && AcrossPos(op, axis) + Across(rs[i], axis) <= Across(JoinLayout(rs, axis, o), axis)
            && (o.align == End ==> AcrossPos(op, axis) + Across(rs[i], axis) == Across(JoinLayout(rs, axis, o), axis))
            && (o.align == Middle ==> AcrossPos(op, axis) == (Across(JoinLayout(rs, axis, o), axis) - Across(rs[i], axis)) / 2.0)
  {
    var g := Geometry(rs, axis, o);
    var op := JoinLayout(rs, axis, o).paint[i];
    assert op.Draw? && op.src == rs[i] && Across(JoinLayout(rs, axis, o), axis) == g.cross
           && AcrossPos(op, axis) == CrossOffset(o.align, g.cross, Across(rs[i], axis)) by {
      LayoutAt(rs, axis, o, i);
    }
    assert Across(rs[i], axis) <= g.cross by {
      assert Crosses(rs, axis)[i] == Across(rs[i], axis);
    }
    CrossOffsetInside(o.align, g.cross, Across(rs[i], axis));
  }

  /** An aligned offset keeps a canvas no thicker than the composite inside it. */
  lemma CrossOffsetInside(align: JoinAlign, cross: real, c: real)
    requires c <= cross
    ensures 0.0 <= CrossOffset(align, cross, c) && CrossOffset(align, cross, c) + c <= cross
    ensures align == End ==> CrossOffset(align, cross, c) + c == cross
    ensures align == Middle ==> CrossOffset(align, cross, c) == (cross - c) / 2.0
  {
  }

  /**
   * In the resize-to-first / -shortest / -tallest modes (-thinnest / -widest vertically) every
   * placed canvas has the target cross size and sits at cross offset 0, and so does the composite.
   */
  lemma JoinResizeModes(cs: seq<Surface>, axis: Axis, o: JoinOptions)
    requires |cs| > 0 && o.align.IsResize() && JoinDefined(cs, axis, o.align)
    requires JoinSpec(cs, axis, o).Success?
    ensures var t := TargetCross(cs, axis, o.align).value;
            var s := JoinSpec(cs, axis, o).value;
            && Across(s, axis) == t
            && |s.paint| == |cs|
            && forall i :: 0 <= i < |cs| ==>
                 s.paint[i].Draw? && Across(s.paint[i].src, axis) == t && AcrossPos(s.paint[i], axis) == 0.0
  {
    var t := TargetCross(cs, axis, o.align).value;
    var rs := ResizeAll(cs, axis, Some(t)).value;
    forall i | 0 <= i < |rs|
      ensures Across(rs[i], axis) == t
    {
      assert Resize(cs[i], CrossResize(axis, t)) == Success(rs[i]);
      ResizeCross(cs[i], axis, t);
    }
    UniformCrossLayout(rs, axis, o, t);
  }

  /** Canvases all of cross size t are joined into a composite t thick, each at cross offset 0. */
  lemma UniformCrossLayout(rs: seq<Surface>, axis: Axis, o: JoinOptions, t: real)
    requires |rs| > 0 && o.align.IsResize()
    requires forall i :: 0 <= i < |rs| ==> Across(rs[i], axis) == t
    ensures var s := JoinLayout(rs, axis, o);
            && Across(s, axis) == t
            && |s.paint| == |rs|
            && forall i :: 0 <= i < |rs| ==>
                 s.paint[i].Draw? && Across(s.paint[i].src, axis) == t && AcrossPos(s.paint[i], axis) == 0.0
  {
    MaxOfConstant(Crosses(rs, axis), t);
    forall i | 0 <= i < |rs|
      ensures var op := JoinLayout(rs, axis, o).paint[i];
              op.Draw? && Across(op.src, axis) == t && AcrossPos(op, axis) == 0.0
    {
      JoinAlignedInside(rs, axis, o, i);
    }
  }

  /**
   * In the plain modes (top / bottom / center, left / right / center) the join fails exactly on
   * an empty list or a canvas with no positive cross size, and otherwise draws the inputs themselves.
   */
  lemma JoinPlainModes(cs: seq<Surface>, axis: Axis, o: JoinOptions)
    requires !o.align.IsResize()
    ensures JoinDefined(cs, axis, o.align)
    ensures JoinSpec(cs, axis, o).Success? <==> |cs| > 0 && forall i :: 0 <= i < |cs| ==> Across(cs[i], axis) > 0.0
    ensures JoinSpec(cs, axis, o).Success? ==>
              var s := JoinSpec(cs, axis, o).value;
              |s.paint| == |cs| && forall i :: 0 <= i < |cs| ==> s.paint[i].Draw? && s.paint[i].src == cs[i]
  {
    if |cs| > 0 && JoinSpec(cs, axis, o).Success? {
      var rs := ResizeAll(cs, axis, None).value;
      forall i | 0 <= i < |cs|
        ensures JoinSpec(cs, axis, o).value.paint[i].Draw? && JoinSpec(cs, axis, o).value.paint[i].src == cs[i]
      {
        assert rs[i] == cs[i] by {
          assert Resize(cs[i], CrossResize(axis, Across(cs[i], axis))) == Success(rs[i]);
          ResizeCross(cs[i], axis, Across(cs[i], axis));
        }
        JoinAlignedInside(rs, axis, o, i);
      }
    }
  }

  /** A join in a plain mode lays out the canvases as given: none of them is resized. */
  lemma JoinPlainLayout(cs: seq<Surface>, axis: Axis, o: JoinOptions)
    requires !o.align.IsResize() && JoinSpec(cs, axis, o).Success?
    ensures |cs| > 0 && JoinSpec(cs, axis, o).value == JoinLayout(cs, axis, o)
  {
    assert |cs| > 0 && TargetCross(cs, axis, o.align) == None;
    var resized := ResizeAll(cs, axis, None);
    assert JoinSpec(cs, axis, o) == Success(JoinLayout(resized.value, axis, o));
    var rs := resized.value;
    forall i | 0 <= i < |cs|
      ensures rs[i] == cs[i]
    {
      assert Resize(cs[i], CrossResize(axis, Across(cs[i], axis))) == Success(rs[i]);
      ResizeCross(cs[i], axis, Across(cs[i], axis));
    }
    assert rs == cs;
  }

  // ---------------------------------------------------------------------------
  // joinCanvasesAsEvenGrid

  /** rows / columns, each a whole number when given. */
  datatype GridOptions = GridOptions(rows: Option<nat>, columns: Option<nat>)

  /**
   * Counts given together are taken as they are, 0 included (the size check then throws); a
   * count given alone must be positive, since Math.ceil(n / 0) is Infinity.
   */
  predicate GridOptionsValid(o: GridOptions)
  {
    (o.rows.Some? && o.columns.Some?) || ((o.rows.Some? ==> o.rows.value > 0) && (o.columns.Some? ==> o.columns.value > 0))
  }

  datatype GridShape = GridShape(rows: nat, columns: nat)

  /**
   * rows and columns: both given are taken as is; one given, the other is
   * Math.ceil(n / given); none given, columns = Math.round(Math.sqrt(n)).
   */
  function ShapeOf(n: nat, o: GridOptions): (s: GridShape)
    requires n > 0 && GridOptionsValid(o)
    ensures o.rows.None? || o.columns.None? ==> s.rows > 0 && s.columns > 0
    ensures n <= s.rows * s.columns ==> s.rows > 0 && s.columns > 0
    ensures o.rows.Some? ==> s.rows == o.rows.value
    ensures o.columns.Some? ==> s.columns == o.columns.value
    ensures o.rows.None? && o.columns.None? ==> s.columns == RoundSqrt(n)
    ensures o.rows.None? || o.columns.None? ==> n <= s.rows * s.columns
  {
    if o.rows.None? then
      var columns := o.columns.GetOr(RoundSqrt(n));
      CeilDivCovers(n, columns);
      GridShape(Ceil(n as real / columns as real), columns)
    else if o.columns.Some? then
      GridShape(o.rows.value, o.columns.value)
    else
      var rows := o.rows.value;
      CeilDivCovers(n, rows);
      GridShape(rows, Ceil(n as real / rows as real))
  }

  function Widths(cs: seq<Surface>): (r: seq<real>)
    ensures |r| == |cs| && forall i :: 0 <= i < |cs| ==> r[i] == cs[i].width
  {
    if cs == [] then [] else Widths(cs[..|cs| - 1]) + [cs[|cs| - 1].width]
  }

  function Heights(cs: seq<Surface>): (r: seq<real>)
    ensures |r| == |cs| && forall i :: 0 <= i < |cs| ==> r[i] == cs[i].height
  {
    if cs == [] then [] else Heights(cs[..|cs| - 1]) + [cs[|cs| - 1].height]
  }

  /** Item i fills the grid row by row: column i % columns ... */
  function Column(i: nat, columns: nat): (c: nat)
    requires columns > 0
    ensures c < columns
  {
    i % columns
  }

  /** ... and row floor(i / columns). */
  function Row(i: nat, columns: nat): nat
    requires columns > 0
  {
    i / columns
  }

  /** Item i is centred in its cell, the offsets rounded down. */
  function GridCell(c: Surface, i: nat, columns: nat, cw: real, ch: real): Op
    requires columns > 0
  {
    Draw(c, Times(Column(i, columns), cw) + Floor((cw - c.width) / 2.0) as real,
            Times(Row(i, columns), ch) + Floor((ch - c.height) / 2.0) as real)
  }

  /** The draws of the first n items of the grid, in order. */
  function GridCells(cs: seq<Surface>, columns: nat, cw: real, ch: real, n: nat): (ops: seq<Op>)
    requires columns > 0 && n <= |cs|
    ensures |ops| == n && forall i :: 0 <= i < n ==> ops[i] == GridCell(cs[i], i, columns, cw, ch)
  {
    if n == 0 then [] else GridCells(cs, columns, cw, ch, n - 1) + [GridCell(cs[n - 1], n - 1, columns, cw, ch)]
  }

  /**
   * An empty list throws, and so do explicit rows and columns too few for the items; otherwise a
   * canvas of columns x rows cells, each as wide as the widest and as tall as the tallest item.
   */
  function GridSpec(cs: seq<Surface>, o: GridOptions): (r: Result<Surface>)
    requires GridOptionsValid(o)
  {
    if |cs| == 0 then Failure(EmptyList)
    else
      var shape := ShapeOf(|cs|, o);
      if |cs| > shape.rows * shape.columns then Failure(GridTooSmall)
      else
        Success(GridLayout(cs, shape))
  }

  /** A canvas of columns x rows cells, each as wide as the widest and as tall as the tallest item. */
  function GridLayout(cs: seq<Surface>, shape: GridShape): Surface
    requires |cs| > 0 && shape.columns > 0
  {
    var cw := MaxOf(Widths(cs));
    var ch := MaxOf(Heights(cs));
    Surface(Times(shape.columns, cw), Times(shape.rows, ch), GridCells(cs, shape.columns, cw, ch, |cs|))
  }

  /** The grid fails exactly on an empty list or explicit rows and columns with fewer cells than items. */
  lemma GridFailure(cs: seq<Surface>, o: GridOptions)
    requires GridOptionsValid(o)
    ensures GridSpec(cs, o).Failure? <==>
              |cs| == 0 || (o.rows.Some? && o.columns.Some? && o.rows.value * o.columns.value < |cs|)
    ensures |cs| == 0 ==> GridSpec(cs, o) == Failure(EmptyList)
  {
    if |cs| > 0 {
      var shape := ShapeOf(|cs|, o);
    }
  }

  /** joinCanvasesAsEvenGrid */
  method JoinAsEvenGrid(canvases: seq<Surface>, o: GridOptions) returns (r: Result<Surface>)
    requires GridOptionsValid(o)
    ensures r == GridSpec(canvases, o)
  {
    if |canvases| == 0 {
      return Failure(EmptyList);
    }
    var n := |canvases|;
    var shape := ShapeOf(n, o);
    if n > shape.rows * shape.columns {
      return Failure(GridTooSmall);
    }
    var grid := PaintGrid(canvases, shape);
    r := Success(grid);
  }

  /** The drawing loop of the grid: each item centred in its cell, in order. */
  method PaintGrid(cs: seq<Surface>, shape: GridShape) returns (s: Surface)
    requires |cs| > 0 && shape.columns > 0
    ensures s == GridLayout(cs, shape)
  {
    var cw := MaxOf(Widths(cs));
    var ch := MaxOf(Heights(cs));
    var canvas := new Canvas(Times(shape.columns, cw), Times(shape.rows, ch));
    for i := 0 to |cs|
      invariant canvas.paint == GridCells(cs, shape.columns, cw, ch, i)
    {
      canvas.Paint(GridCell(cs[i], i, shape.columns, cw, ch));
    }
    s := canvas.Snapshot();
  }

  /** An item centred in cell `pos` of `count` cells of size `cell` lies within its cell, inside the grid. */
  lemma CellBounds(pos: nat, count: nat, cell: real, size: real)
    requires pos < count && 0.0 <= size <= cell
    ensures Times(pos, cell) <= Times(pos, cell) + Floor((cell - size) / 2.0) as real
    ensures Times(pos, cell) + Floor((cell - size) / 2.0) as real + size <= Times(pos + 1, cell)
    ensures Times(pos + 1, cell) <= Times(count, cell)
  {
    TimesMono(pos + 1, count, cell);
  }

  /** Item i of n <= rows * columns falls in a row before the last one. */
  lemma RowInGrid(i: nat, rows: nat, columns: nat)
    requires columns > 0 && i < rows * columns
    ensures Row(i, columns) < rows
  {
    var q := i / columns;
    assert q * columns <= i;
    assert (rows - q) * columns == rows * columns - q * columns;
    assert (rows - q) * columns > 0;
  }

  /** Adding x up more times never gives less, for x >= 0. */
  lemma {:induction false} TimesMono(a: nat, b: nat, x: real)
    requires a <= b && x >= 0.0
    ensures Times(a, x) <= Times(b, x)
    decreases b
  {
    if a < b {
      TimesMono(a, b - 1, x);
    }
  }

  /** Item i lies wholly inside cell (i % columns, i / columns), which lies inside the grid. */
  lemma {:induction false} GridItemInCell(cs: seq<Surface>, shape: GridShape, i: nat)
    requires shape.columns > 0 && i < |cs| <= shape.rows * shape.columns
    requires forall k :: 0 <= k < |cs| ==> cs[k].width >= 0.0 && cs[k].height >= 0.0
    ensures var s := GridLayout(cs, shape);
            var op := s.paint[i];
            var col, row := Column(i, shape.columns), Row(i, shape.columns);
            var cw, ch := MaxOf(Widths(cs)), MaxOf(Heights(cs));
            && op == GridCell(cs[i], i, shape.columns, cw, ch)
            && Times(col, cw) <= op.x && op.x + cs[i].width <= Times(col + 1, cw) <= s.width
            && Times(row, ch) <= op.y && op.y + cs[i].height <= Times(row + 1, ch) <= s.height
  {
    var cw, ch := MaxOf(Widths(cs)), MaxOf(Heights(cs));
    assert cs[i].width <= cw by {
      assert Widths(cs)[i] == cs[i].width;
    }
    assert cs[i].height <= ch by {
      assert Heights(cs)[i] == cs[i].height;
    }
    assert Row(i, shape.columns) < shape.rows by {
      RowInGrid(i, shape.rows, shape.columns);
    }
    CellInGrid(cs[i], i, shape, cw, ch);
  }

  /** The draw of item i, for any cell size that fits it, lies in its cell and inside the grid. */
  lemma CellInGrid(c: Surface, i: nat, shape: GridShape, cw: real, ch: real)
    requires shape.columns > 0 && Row(i, shape.columns) < shape.rows
    requires 0.0 <= c.width <= cw && 0.0 <= c.height <= ch
    ensures var op := GridCell(c, i, shape.columns, cw, ch);
            var col, row := Column(i, shape.columns), Row(i, shape.columns);
            && Times(col, cw) <= op.x && op.x + c.width <= Times(col + 1, cw) <= Times(shape.columns, cw)
            && Times(row, ch) <= op.y && op.y + c.height <= Times(row + 1, ch) <= Times(shape.rows, ch)
  {
    CellBounds(Column(i, shape.columns), shape.columns, cw, c.width);
    CellBounds(Row(i, shape.columns), shape.rows, ch, c.height);
  }

  // ---------------------------------------------------------------------------
  // withMargin, fillBackground, toCircle, applyMask, fillWithMask, setHue, getRotated

  /** A numeric margin for all four sides, or per-side margins defaulting to 0. */
  datatype Margin = Uniform(size: real) | Sides(top: Option<real>, left: Option<real>, right: Option<real>, bottom: Option<real>)

  function WithMargin(image: Surface, margin: Margin): (r: Surface)
    ensures margin.Uniform? ==>
              var m := margin.size;
              r.width == image.width + 2.0 * m && r.height == image.height + 2.0 * m && r.paint == [Draw(image, m, m)]
    ensures margin.Sides? ==>
              var (t, l, rt, b) := (margin.top.GetOr(0.0), margin.left.GetOr(0.0), margin.right.GetOr(0.0), margin.bottom.GetOr(0.0));
              && r.paint == [Draw(image, l, t)]
              && r.width - (l + image.width) == rt
              && r.height - (t + image.height) == b
  {
    var top := if margin.Uniform? then margin.size else margin.top.GetOr(0.0);
    var left := if margin.Uniform? then margin.size else margin.left.GetOr(0.0);
    var right := if margin.Uniform? then margin.size else margin.right.GetOr(0.0);
    var bottom := if margin.Uniform? then margin.size else margin.bottom.GetOr(0.0);
    Surface(image.width + left + right, image.height + top + bottom, [Draw(image, left, top)])
  }

  function FillBackground(image: Surface, background: Style): (r: Surface)
    ensures r.width == image.width && r.height == image.height
    ensures r.paint == [FillRect(background, 0.0, 0.0, r.width, r.height), Draw(image, 0.0, 0.0)]
  {
    Surface(image.width, image.height,
            [FillRect(background, 0.0, 0.0, image.width, image.height), Draw(image, 0.0, 0.0)])
  }

  /** toCircle: the image is clipped to the largest centred circle; the alpha defaults to 1. */
  function ToCircle(image: Surface, alpha: Option<real>): (r: Surface)
    requires image.width >= 0.0 && image.height >= 0.0
    ensures r.width == image.width && r.height == image.height
    ensures |r.paint| == 6 && r.paint[0] == SetAlpha(alpha.GetOr(1.0)) && r.paint[5] == SetAlpha(1.0)
    ensures var clip := r.paint[2];
            var draw := r.paint[3];
            && clip.ClipCircle? && draw.DrawScaled? && draw.src == image
            && clip.radius == Min(image.width, image.height) / 2.0
            // the circle's bounding square is centred and inside the canvas
            && draw.w == draw.h == 2.0 * clip.radius
            && 0.0 <= draw.x && draw.x + draw.w <= r.width && 0.0 <= draw.y && draw.y + draw.h <= r.height
            && draw.x + draw.w / 2.0 == r.width / 2.0 && draw.y + draw.h / 2.0 == r.height / 2.0
  {
    var cx := image.width / 2.0;
    var cy := image.height / 2.0;
    var radius := Min(cx, cy);
    Surface(image.width, image.height,
            [SetAlpha(alpha.GetOr(1.0)), Save, ClipCircle(cx, cy, radius),
             DrawScaled(image, cx - radius, cy - radius, radius * 2.0, radius * 2.0), Restore, SetAlpha(1.0)])
  }

  /** applyMask: the image sized canvas keeps only where the mask, stretched to the image size, is opaque. */
  function ApplyMask(image: Surface, mask: Surface): (r: Surface)
    ensures r.width == image.width && r.height == image.height
    ensures r.paint == [Draw(image, 0.0, 0.0), Save, SetComposite(DestinationIn),
                        DrawScaled(mask, 0.0, 0.0, r.width, r.height), Restore]
  {
    Surface(image.width, image.height,
            [Draw(image, 0.0, 0.0), Save, SetComposite(DestinationIn),
             DrawScaled(mask, 0.0, 0.0, image.width, image.height), Restore])
  }

  /** fillWithMask: a mask sized canvas filled with the style, then masked. */
  function FillWithMask(style: Style, mask: Surface): (r: Surface)
    ensures r.width == mask.width && r.height == mask.height
    ensures r.paint == [FillRect(style, 0.0, 0.0, r.width, r.height), Save, SetComposite(DestinationIn),
                        DrawScaled(mask, 0.0, 0.0, r.width, r.height), Restore]
  {
    Surface(mask.width, mask.height,
            [FillRect(style, 0.0, 0.0, mask.width, mask.height), Save, SetComposite(DestinationIn),
             DrawScaled(mask, 0.0, 0.0, mask.width, mask.height), Restore])
  }

  function SetHue(image: Surface, style: Style): (r: Surface)
    ensures r.width == image.width && r.height == image.height
    ensures r.paint == [Draw(image, 0.0, 0.0), Save, SetComposite(HueMode),
                        FillRect(style, 0.0, 0.0, r.width, r.height), Restore]
  {
    Surface(image.width, image.height,
            [Draw(image, 0.0, 0.0), Save, SetComposite(HueMode),
             FillRect(style, 0.0, 0.0, image.width, image.height), Restore])
  }

  /**
   * getRotated: the same size canvas, rotated about its centre. As written, the draw offset
   * uses -width/2 for the vertical coordinate as well as the horizontal one.
   */
  function GetRotated(image: Surface, angle: Angle): (r: Surface)
    ensures r.width == image.width && r.height == image.height
    ensures |r.paint| == 3 && r.paint[1].DrawRotated? && r.paint[1].src == image && r.paint[1].angle == angle
    ensures r.paint[1].cx == r.width / 2.0 && r.paint[1].cy == r.height / 2.0
    ensures r.paint[1].x == Round(-image.width / 2.0) as real && r.paint[1].y == r.paint[1].x
  {
    Surface(image.width, image.height,
            [Save,
             DrawRotated(image, image.width / 2.0, image.height / 2.0, angle,
                         Round(-image.width / 2.0) as real, Round(-image.width / 2.0) as real),
             Restore])
  }

  // ---------------------------------------------------------------------------
  // withOutline / withDropShadow

  datatype OutlineOptions = OutlineOptions(expandCanvas: Option<bool>, style: Option<Style>, thickness: Option<real>,
                                           quality: Option<real>, initialAngle: Option<Angle>)

  /** The number of angles, at least 1; by default 16, or 32 for images at least 1000 wide. */
  function OutlineQuality(image: Surface, o: OutlineOptions): (q: real)
    ensures q >= 1.0
    ensures o.quality.None? ==> q == if image.width >= 1000.0 then 32.0 else 16.0
  {
    Max(1.0, o.quality.GetOr(if image.width >= 1000.0 then 32.0 else 16.0))
  }

  function OutlineExpansion(o: OutlineOptions): real
  {
    if o.expandCanvas.GetOr(false) then o.thickness.GetOr(3.0) else 0.0
  }

  /** The i-th shadow angle: initialAngle + (i / quality) of a full turn. */
  function ShadowAngle(o: OutlineOptions, q: real, i: nat): Angle
    requires q >= 1.0
  {
    var a := o.initialAngle.GetOr(Angle(0.0, 0.0));
    Angle(a.turns + i as real / q, a.radians)
  }

  /** The number of iterations of `for (i = 0; i < quality; i++)`. */
  function ShadowCount(q: real): (k: nat)
    requires q >= 1.0
    ensures k >= 1
  {
    Ceil(q)
  }

  /** The i-th shadow: the image offset by the thickness at the i-th angle, inside the expansion margin. */
  function Shadow(image: Surface, o: OutlineOptions, i: nat): Op
  {
    var e := OutlineExpansion(o);
    DrawPolar(image, o.thickness.GetOr(3.0), ShadowAngle(o, OutlineQuality(image, o), i), e, e)
  }

  /** The first n shadows, in the order the loop draws them. */
  function Shadows(image: Surface, o: OutlineOptions, n: nat): (ops: seq<Op>)
    ensures |ops| == n
  {
    if n == 0 then [] else Shadows(image, o, n - 1) + [Shadow(image, o, n - 1)]
  }

  lemma {:induction false} ShadowAt(image: Surface, o: OutlineOptions, n: nat, i: nat)
    requires i < n
    ensures Shadows(image, o, n)[i] == Shadow(image, o, i)
  {
    if i < n - 1 {
      ShadowAt(image, o, n - 1, i);
    }
  }

  function OutlineSpec(image: Surface, o: OutlineOptions): Surface
  {
    var e := OutlineExpansion(o);
    var w := image.width + 2.0 * e;
    var h := image.height + 2.0 * e;
    Surface(w, h, [Save] + Shadows(image, o, ShadowCount(OutlineQuality(image, o)))
                  + [SetComposite(SourceIn), FillRect(o.style.GetOr(Shade(0.5)), 0.0, 0.0, w, h), Restore, Draw(image, e, e)])
  }

  method WithOutline(image: Surface, o: OutlineOptions) returns (r: Surface)
    ensures r == OutlineSpec(image, o)
  {
    var expandCanvas := o.expandCanvas.GetOr(false);
    var style := o.style.GetOr(Shade(0.5));
    var thickness := o.thickness.GetOr(3.0);
    var quality := Max(1.0, o.quality.GetOr(if image.width >= 1000.0 then 32.0 else 16.0));
    var initialAngle := o.initialAngle.GetOr(Angle(0.0, 0.0));
    var expansion := if expandCanvas then thickness else 0.0;
    var canvas := new Canvas(image.width + 2.0 * expansion, image.height + 2.0 * expansion);
    canvas.Paint(Save);
    var i: nat := 0;
    while (i as real) < quality
      invariant i <= ShadowCount(quality)
      invariant canvas.paint == [Save] + Shadows(image, o, i)
      decreases ShadowCount(quality) - i
    {
      var angle := Angle(initialAngle.turns + i as real / quality, initialAngle.radians);
      canvas.Paint(DrawPolar(image, thickness, angle, expansion, expansion));
      i := i + 1;
    }
    assert i == ShadowCount(OutlineQuality(image, o));
    ghost var drawn := canvas.paint;
    canvas.Paint(SetComposite(SourceIn));
    canvas.Paint(FillRect(style, 0.0, 0.0, canvas.width, canvas.height));
    canvas.Paint(Restore);
    canvas.Paint(Draw(image, expansion, expansion));
    assert canvas.paint == drawn + [SetComposite(SourceIn), FillRect(style, 0.0, 0.0, canvas.width, canvas.height),
                                    Restore, Draw(image, expansion, expansion)];
    r := canvas.Snapshot();
  }

  /**
   * The outline grows each side by the thickness only when expandCanvas is set, paints
   * ceil(quality) >= 1 shadows of the image, each offset by the thickness, then fills the
   * shadows with the style and draws the image on top, centred in the grown canvas.
   */
  lemma OutlineShape(image: Surface, o: OutlineOptions)
    ensures var s := OutlineSpec(image, o);
            var n := ShadowCount(OutlineQuality(image, o));
            var e := if o.expandCanvas.GetOr(false) then o.thickness.GetOr(3.0) else 0.0;
            && s.width == image.width + 2.0 * e && s.height == image.height + 2.0 * e
            && |s.paint| == n + 5 && n >= 1
            && s.paint[0] == Save
            && (forall k :: 1 <= k <= n ==>
                  s.paint[k].DrawPolar? && s.paint[k].src == image && s.paint[k].radius == o.thickness.GetOr(3.0)
                  && s.paint[k].ox == e && s.paint[k].oy == e)
            && s.paint[n + 1] == SetComposite(SourceIn)
            && s.paint[n + 2] == FillRect(o.style.GetOr(Shade(0.5)), 0.0, 0.0, s.width, s.height)
            && s.paint[n + 3] == Restore
            && s.paint[n + 4] == Draw(image, e, e)
            && e + image.width + e == s.width
  {
    var n := ShadowCount(OutlineQuality(image, o));
    var s := OutlineSpec(image, o);
    forall k | 1 <= k <= n
      ensures s.paint[k] == Shadow(image, o, k - 1)
    {
      ShadowAt(image, o, n, k - 1);
    }
  }

  /**
   * The shadows go round from initialAngle in equal steps of a full turn / quality: shadow k
   * (counting from 1) is (k - 1) / quality of a turn on, so any two are (k - j) / quality apart.
   */
  lemma OutlineAngles(image: Surface, o: OutlineOptions)
    ensures var s := OutlineSpec(image, o);
            var q := OutlineQuality(image, o);
            var n := ShadowCount(q);
            var a := o.initialAngle.GetOr(Angle(0.0, 0.0));
            && s.paint[1].DrawPolar? && s.paint[1].angle == a
            && (forall k :: 1 <= k <= n ==>
                  s.paint[k].DrawPolar? && s.paint[k].angle.radians == a.radians)
            && (forall j, k :: 1 <= j < k <= n ==>
                  s.paint[k].angle.turns - s.paint[j].angle.turns == (k - j) as real / q)
  {
    var q := OutlineQuality(image, o);
    var n := ShadowCount(q);
    var s := OutlineSpec(image, o);
    forall k | 1 <= k <= n
      ensures s.paint[k] == Shadow(image, o, k - 1)
    {
      ShadowAt(image, o, n, k - 1);
    }
    forall j, k | 1 <= j < k <= n
      ensures s.paint[k].angle.turns - s.paint[j].angle.turns == (k - j) as real / q
    {
      QuotientDifference((k - 1) as real, (j - 1) as real, q);
    }
  }

  lemma QuotientDifference(x: real, y: real, q: real)
    requires q > 0.0
    ensures x / q - y / q == (x - y) / q
  {
  }

  datatype ShadowOptions = ShadowOptions(expandCanvas: Option<bool>, alpha: Option<real>, angle: Option<real>, distance: Option<real>)

  /** The outline options withDropShadow passes on; as written, `alpha` feeds `initialAngle`. */
  function DropShadowOutline(o: ShadowOptions): OutlineOptions
  {
    OutlineOptions(Some(o.expandCanvas.GetOr(false)), Some(Shade(o.alpha.GetOr(0.5))), Some(o.distance.GetOr(3.0)),
                   Some(1.0), Some(if o.alpha.Some? then Angle(0.0, o.alpha.value) else Turns(0.875)))
  }

  /**
   * A drop shadow is an outline of quality 1: exactly one shadow, offset by the distance
   * at the initial angle, under the image. The `angle` option is never read.
   */
  method WithDropShadow(image: Surface, o: ShadowOptions) returns (r: Surface)
    ensures r == OutlineSpec(image, DropShadowOutline(o))
    ensures var e := if o.expandCanvas.GetOr(false) then o.distance.GetOr(3.0) else 0.0;
            && r.width == image.width + 2.0 * e && r.height == image.height + 2.0 * e
            && |r.paint| == 6
            && r.paint[1] == DrawPolar(image, o.distance.GetOr(3.0),
                                       if o.alpha.Some? then Angle(0.0, o.alpha.value) else Turns(0.875), e, e)
            && r.paint[3] == FillRect(Shade(o.alpha.GetOr(0.5)), 0.0, 0.0, r.width, r.height)
            && r.paint[5] == Draw(image, e, e)
  {
    r := WithOutline(image, DropShadowOutline(o));
    ShadowAt(image, DropShadowOutline(o), 1, 0);
  }

  // ---------------------------------------------------------------------------
  // superimpose

  /** left / top, center, right / bottom */
  datatype Anchor = Near | Centered | Far

  function AnchorOffset(a: Anchor, total: real, size: real): real
  {
    match a
    case Centered => Round((total - size) / 2.0) as real
    case Far => total - size
    case Near => 0.0
  }

  /** Canvas i drawn at its anchored offsets in a w x h canvas. */
  function StackedAt(c: Surface, w: real, h: real, ha: Anchor, va: Anchor): Op
  {
    Draw(c, AnchorOffset(ha, w, c.width), AnchorOffset(va, h, c.height))
  }

  /** The draws of the first n canvases, in order (later ones on top). */
  function Stacked(cs: seq<Surface>, w: real, h: real, ha: Anchor, va: Anchor, n: nat): (ops: seq<Op>)
    requires n <= |cs|
    ensures |ops| == n
  {
    if n == 0 then [] else Stacked(cs, w, h, ha, va, n - 1) + [StackedAt(cs[n - 1], w, h, ha, va)]
  }

  lemma {:induction false} StackedIndex(cs: seq<Surface>, w: real, h: real, ha: Anchor, va: Anchor, n: nat, i: nat)
    requires i < n <= |cs|
    ensures Stacked(cs, w, h, ha, va, n)[i] == StackedAt(cs[i], w, h, ha, va)
  {
    if i < n - 1 {
      StackedIndex(cs, w, h, ha, va, n - 1, i);
    }
  }

  function SuperimposeSpec(cs: seq<Surface>, ha: Anchor, va: Anchor): (r: Result<Surface>)
    ensures r.Failure? <==> |cs| == 0
    ensures r.Failure? ==> r.error == EmptyList
  {
    if |cs| == 0 then Failure(EmptyList)
    else
      var w := MaxOf(Widths(cs));
      var h := MaxOf(Heights(cs));
      Success(Surface(w, h, Stacked(cs, w, h, ha, va, |cs|)))
  }

  /** superimpose, later canvases on top; the alignments default to Centered. */
  method Superimpose(canvases: seq<Surface>, ha: Anchor, va: Anchor) returns (r: Result<Surface>)
    ensures r == SuperimposeSpec(canvases, ha, va)
  {
    if |canvases| == 0 {
      return Failure(EmptyList);
    }
    var width := MaxOf(Widths(canvases));
    var height := MaxOf(Heights(canvases));
    var canvas := new Canvas(width, height);
    for i := 0 to |canvases|
      invariant canvas.paint == Stacked(canvases, width, height, ha, va, i)
    {
      var c := canvases[i];
      canvas.Paint(Draw(c, AnchorOffset(ha, width, c.width), AnchorOffset(va, height, c.height)));
    }
    r := Success(canvas.Snapshot());
  }

  /** Rounding half the slack never leaves the slack. */
  lemma AnchorInside(a: Anchor, total: real, size: real)
    requires size <= total
    ensures 0.0 <= AnchorOffset(a, total, size) && AnchorOffset(a, total, size) + size <= total
  {
    if a == Centered {
      var d := total - size;
      var k := Round(d / 2.0);
      assert k as real - 0.5 <= d / 2.0;
      if d < 1.0 {
        assert k == 0;
      }
    }
  }

  /** For every alignment, every input lies inside the max width x max height output. */
  lemma SuperimposeInside(cs: seq<Surface>, ha: Anchor, va: Anchor, i: nat)
    requires i < |cs|
    ensures var s := SuperimposeSpec(cs, ha, va).value;
            && s.width == MaxOf(Widths(cs)) && s.height == MaxOf(Heights(cs))
            && s.paint[i].Draw? && s.paint[i].src == cs[i]
            && 0.0 <= s.paint[i].x && s.paint[i].x + cs[i].width <= s.width
            && 0.0 <= s.paint[i].y && s.paint[i].y + cs[i].height <= s.height
  {
    var w, h := MaxOf(Widths(cs)), MaxOf(Heights(cs));
    assert Widths(cs)[i] == cs[i].width && Heights(cs)[i] == cs[i].height;
    StackedIndex(cs, w, h, ha, va, |cs|, i);
    AnchorInside(ha, w, cs[i].width);
    AnchorInside(va, h, cs[i].height);
  }

  /** A single input comes back at its own size, drawn at (0, 0), whatever the alignment. */
  lemma SuperimposeSingle(c: Surface, ha: Anchor, va: Anchor)
    ensures SuperimposeSpec([c], ha, va) == Success(Surface(c.width, c.height, [Draw(c, 0.0, 0.0)]))
  {
    assert Widths([c]) == [c.width] by {
      assert [c][..0] == [];
    }
    assert Heights([c]) == [c.height] by {
      assert [c][..0] == [];
    }
    assert Stacked([c], c.width, c.height, ha, va, 1) == [Draw(c, 0.0, 0.0)] by {
      assert Round(0.0) == 0;
    }
  }

  // ---------------------------------------------------------------------------
  // crop, cropAroundPoints, cropToSquare

  /** 'left' | 'center' | 'right' (or top / center / bottom) as an anchor, or 'custom'. */
  datatype CropAlign = Fixed(anchor: Anchor) | Custom

  datatype CropOptions = CropOptions(x: Option<real>, y: Option<real>, width: Option<real>, height: Option<real>,
                                     horizontal: Option<CropAlign>, vertical: Option<CropAlign>)

  /** The draw offset on one axis: -(custom ?? 0) unless an anchor overrides it. */
  function CropOffset(a: CropAlign, custom: Option<real>, total: real, size: real): real
  {
    match a
    case Custom => -custom.GetOr(0.0)
    case Fixed(anchor) => AnchorOffset(anchor, total, size)
  }

  function Crop(image: Surface, o: CropOptions): (r: Surface)
    ensures r.width == o.width.GetOr(image.width) && r.height == o.height.GetOr(image.height)
    ensures |r.paint| == 1 && r.paint[0].Draw? && r.paint[0].src == image
    ensures var a := o.horizontal.GetOr(Fixed(Centered));
            var x := r.paint[0].x;
            && (a == Fixed(Near) ==> x == 0.0)
            && (a == Fixed(Far) ==> x + image.width == r.width)
            && (a == Fixed(Centered) ==> -0.5 < x - (r.width - image.width) / 2.0 <= 0.5)
            && (a == Custom ==> x == -o.x.GetOr(0.0))
    ensures var a := o.vertical.GetOr(Fixed(Centered));
            var y := r.paint[0].y;
            && (a == Fixed(Near) ==> y == 0.0)
            && (a == Fixed(Far) ==> y + image.height == r.height)
            && (a == Fixed(Centered) ==> -0.5 < y - (r.height - image.height) / 2.0 <= 0.5)
            && (a == Custom ==> y == -o.y.GetOr(0.0))
  {
    var w := o.width.GetOr(image.width);
    var h := o.height.GetOr(image.height);
    var x := CropOffset(o.horizontal.GetOr(Fixed(Centered)), o.x, w, image.width);
    var y := CropOffset(o.vertical.GetOr(Fixed(Centered)), o.y, h, image.height);
    Surface(w, h, [Draw(image, x, y)])
  }

  /** The anchored modes ignore the custom x and y coordinates. */
  lemma CropIgnoresCustomOffsets(image: Surface, o: CropOptions, x: Option<real>, y: Option<real>)
    requires o.horizontal.GetOr(Fixed(Centered)) != Custom && o.vertical.GetOr(Fixed(Centered)) != Custom
    ensures Crop(image, o.(x := x, y := y)) == Crop(image, o)
  {
  }

  datatype Point = Point(x: real, y: real)

  function Xs(ps: seq<Point>): (r: seq<real>)
    ensures |r| == |ps| && forall i :: 0 <= i < |ps| ==> r[i] == ps[i].x
  {
    seq(|ps|, i requires 0 <= i < |ps| => ps[i].x)
  }

  function Ys(ps: seq<Point>): (r: seq<real>)
    ensures |r| == |ps| && forall i :: 0 <= i < |ps| ==> r[i] == ps[i].y
  {
    seq(|ps|, i requires 0 <= i < |ps| => ps[i].y)
  }

  /**
   * The crop is the bounding box of the points grown by the margin on every side, so every
   * point lands at least `margin` inside each edge.
   */
  function CropAroundPoints(image: Surface, points: seq<Point>, margin: Option<real>): (r: Result<Surface>)
    ensures r.Failure? <==> |points| == 0
    ensures r.Failure? ==> r.error == NoPoints
    ensures r.Success? ==>
              var m := margin.GetOr(0.0);
              var s := r.value;
              && s.width == MaxOf(Xs(points)) - MinOf(Xs(points)) + 2.0 * m
              && s.height == MaxOf(Ys(points)) - MinOf(Ys(points)) + 2.0 * m
              && |s.paint| == 1 && s.paint[0].Draw? && s.paint[0].src == image
              && forall i :: 0 <= i < |points| ==>
                   && m <= points[i].x + s.paint[0].x <= s.width - m
                   && m <= points[i].y + s.paint[0].y <= s.height - m
  {
    if |points| == 0 then Failure(NoPoints)
    else
      var leftX, rightX := MinOf(Xs(points)), MaxOf(Xs(points));
      var topY, bottomY := MinOf(Ys(points)), MaxOf(Ys(points));
      var m := margin.GetOr(0.0);
      Success(Crop(image, CropOptions(Some(leftX - m), Some(topY - m),
                                      Some(rightX - leftX + 2.0 * m), Some(bottomY - topY + 2.0 * m),
                                      Some(Custom), Some(Custom))))
  }

  /** A centred min(width, height) square. */
  function CropToSquare(image: Surface): (r: Surface)
    ensures r.width == r.height == Min(image.width, image.height)
    ensures |r.paint| == 1 && r.paint[0].Draw? && r.paint[0].src == image
    ensures -0.5 < r.paint[0].x - (r.width - image.width) / 2.0 <= 0.5
    ensures -0.5 < r.paint[0].y - (r.height - image.height) / 2.0 <= 0.5
  {
    var side := Min(image.width, image.height);
    Crop(image, CropOptions(None, None, Some(side), Some(side), Some(Fixed(Centered)), Some(Fixed(Centered))))
  }
}
