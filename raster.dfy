/**
 * The raster surface abstraction the library is built on. A surface is its size plus the
 * ordered log of everything painted onto it; the native canvas library that turns that
 * log into pixels (resampling, compositing, clipping, path filling, font shaping) is
 * outside the model. Nested surfaces appear inside the log as the sources of draws.
 */
module Raster {

  datatype Option<T> = None | Some(value: T)
  {
    /** `x ?? d` */
    function GetOr(d: T): T
    {
      if Some? then value else d
    }
  }

  /** The synchronous failures the library throws. */
  datatype Error =
    | MissingDimensions       // resize: neither width nor height
    | NonPositiveWidth        // resize: width <= 0
    | NonPositiveHeight       // resize: height <= 0
    | EmptyList               // join / superimpose of no canvases
    | GridTooSmall            // rows * columns < n
    | NoText                  // text label of the empty string
    | NoPoints                // crop around an empty point list
    | MissingCell             // text grid: no first row, or a row shorter than the first

  datatype Result<T> = Success(value: T) | Failure(error: Error)

  /**
   * The outcome of a loop that pushes one result per step and stops at the first throw:
   * all the values in order, or the first failure.
   */
  function Collect<T>(results: seq<Result<T>>): (r: Result<seq<T>>)
    ensures r.Success? ==> |r.value| == |results|
  {
    if results == [] then Success([])
    else
      match Collect(results[..|results| - 1])
      case Failure(e) => Failure(e)
      case Success(values) =>
        match results[|results| - 1]
        case Failure(e) => Failure(e)
        case Success(v) => Success(values + [v])
  }

  /** The loop succeeds exactly when every step does, and then yields each step's value. */
  lemma {:induction false} CollectSuccess<T>(results: seq<Result<T>>)
    ensures Collect(results).Success? <==> forall i :: 0 <= i < |results| ==> results[i].Success?
    ensures Collect(results).Success? ==> forall i :: 0 <= i < |results| ==> Collect(results).value[i] == results[i].value
  {
    if results != [] {
      var front := results[..|results| - 1];
      CollectSuccess(front);
      assert forall i :: 0 <= i < |front| ==> front[i] == results[i];
    }
  }

  /** Once a prefix of the steps has thrown, the later steps do not change the outcome. */
  lemma {:induction false} CollectFailedPrefix<T>(results: seq<Result<T>>, k: nat)
    requires k <= |results| && Collect(results[..k]).Failure?
    ensures Collect(results) == Collect(results[..k])
    decreases |results|
  {
    if k < |results| {
      var front := results[..|results| - 1];
      assert front[..k] == results[..k];
      CollectFailedPrefix(front, k);
    } else {
      assert results[..k] == results;
    }
  }

  /** One more step: its value is appended, or its failure is the outcome. */
  lemma CollectSnoc<T>(results: seq<Result<T>>, next: Result<T>)
    requires Collect(results).Success?
    ensures Collect(results + [next])
            == if next.Success? then Success(Collect(results).value + [next.value]) else Failure(next.error)
  {
    assert (results + [next])[..|results|] == results;
  }

  /** The loop after step k + 1 of a known run of steps, from its outcome after step k. */
  lemma CollectStep<T>(results: seq<Result<T>>, k: nat)
    requires k < |results| && Collect(results[..k]).Success?
    ensures Collect(results[..k + 1])
            == if results[k].Success? then Success(Collect(results[..k]).value + [results[k].value])
               else Failure(results[k].error)
  {
    assert results[..k + 1] == results[..k] + [results[k]];
    CollectSnoc(results[..k], results[k]);
  }

  /**
   * An angle of 2*pi*turns + radians radians. Fractions of a full turn keep pi out of
   * the model; raw radian values supplied by a caller stay in `radians`.
   */
  datatype Angle = Angle(turns: real, radians: real)

  function Turns(t: real): Angle
  {
    Angle(t, 0.0)
  }

  /** A CSS font string, kept structured: `${px}px sans-serif`, `${px}px "Clarendon LT Std"`. */
  datatype Font = SansSerif(px: real) | Clarendon(px: real) | NamedFont(name: string)

  /** A CSS colour string; `Shade(a)` is `rgba(0,0,0,${a})`. */
  datatype Style = Color(name: string) | Shade(alpha: real)

  datatype CompositeMode = DestinationIn | SourceIn | HueMode

  datatype Op =
      /** drawImage(src, x, y) */
    | Draw(src: Surface, x: real, y: real)
      /** drawImage(src, x, y, w, h): the source stretched to w x h */
    | DrawScaled(src: Surface, x: real, y: real, w: real, h: real)
      /** drawImage(src, ox + radius*cos(angle), oy - radius*sin(angle)) */
    | DrawPolar(src: Surface, radius: real, angle: Angle, ox: real, oy: real)
      /** translate(cx, cy); rotate(angle); drawImage(src, x, y) */
    | DrawRotated(src: Surface, cx: real, cy: real, angle: Angle, x: real, y: real)
    | FillRect(style: Style, x: real, y: real, w: real, h: real)
      /** font, fillStyle and globalAlpha set, then fillText(text, x, y[, maxWidth]) */
    | FillText(text: string, font: Font, style: Style, alpha: real, x: real, y: real, maxWidth: Option<real>)
      /** the closed wedge outline of a wheel tile for N sectors, filled and stroked */
    | WedgePath(fill: Style, lineWidth: real, outerRadius: real, sectors: real)
    | ClipCircle(cx: real, cy: real, radius: real)
    | SetAlpha(alpha: real)
    | SetComposite(mode: CompositeMode)
    | Save
    | Restore

  datatype Surface = Surface(width: real, height: real, paint: seq<Op>)

  /**
   * A canvas under construction: createCanvas(width, height) and its 2D context.
   * Every drawing call appends to the paint log; Snapshot is the finished surface.
   */
  class Canvas {
    const width: real
    const height: real
    var paint: seq<Op>

    constructor (width: real, height: real)
      ensures this.width == width && this.height == height && paint == []
    {
      this.width := width;
      this.height := height;
      paint := [];
    }

    method Paint(op: Op)
      modifies this
      ensures paint == old(paint) + [op]
    {
      paint := paint + [op];
    }

    function Snapshot(): Surface
      reads this
    {
      Surface(width, height, paint)
    }
  }
}
