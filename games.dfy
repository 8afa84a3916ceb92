/**
 * The wheel of fortune (src/games.ts): a tile is a wedge of a wheel of N sectors with a
 * cent amount, a word, an icon or a row of sub-tiles on it; the wheel is its tiles, each
 * turned to its own sector.
 *
 * The wedge width 2R*cos((pi - 2pi/N)/2) and the vertical label routine are supplied by
 * the caller (`Env`); every angle is a fraction of a full turn.
 */
module Games {
  import opened JsMath
  import opened Raster
  import opened Util
  import opened Text

  /** What a tile shows: a cent amount, a word, an icon, or sub-tiles sharing its wedge. */
  datatype Content =
    | Number(amount: int)
    | Caption(text: string)
    | Icon(image: Surface)
    | Compound(subtiles: seq<TileData>)

  /** One entry of a wheel or of a compound tile; `horizontal` is absent (false) or true. */
  datatype TileData = TileData(content: Content, fillStyle: Option<Style>, textStyle: Option<Style>, horizontal: bool)

  datatype TileOptions = TileOptions(r: Option<real>, n: Option<nat>, tileStyle: Option<Style>,
                                     textStyle: Option<Style>, horizontal: bool)

  /**
   * What the tile code takes from outside: text metrics, the chord width of a wedge of
   * radius R in a wheel of N sectors, and getVerticalTextLabel.
   */
  datatype Env = Env(metrics: Metrics, wedgeWidth: (real, nat) -> real,
                     verticalLabel: (string, LabelOptions) -> Result<Surface>)

  const DefaultFill := Color("red")
  const DefaultText := Color("white")

  /** R, 300 unless given; it is also the tile's height. */
  function Radius(o: TileOptions): real
  {
    o.r.GetOr(300.0)
  }

  /** N, 24 unless given. */
  function Sectors(o: TileOptions): nat
  {
    o.n.GetOr(24)
  }

  /** theta = 2*pi / N, as a fraction of a turn. */
  function WedgeTurns(n: nat): real
    requires n > 0
  {
    1.0 / n as real
  }

  /** N wedges of a wheel make one full turn. */
  lemma WedgesFillTurn(n: nat)
    requires n > 0
    ensures Times(n, WedgeTurns(n)) == 1.0
  {
    TimesIsProduct(n, WedgeTurns(n));
  }

  function TileWidth(env: Env, o: TileOptions): real
  {
    env.wedgeWidth(Radius(o), Sectors(o))
  }

  /** The size unit of a tile's face: min(WIDTH * 0.55, HEIGHT * 0.3). */
  function Unit(env: Env, o: TileOptions): real
  {
    Min(TileWidth(env, o) * 0.55, Radius(o) * 0.3)
  }

  function LineWidth(env: Env, o: TileOptions): real
  {
    Round(Unit(env, o) / 12.0) as real
  }

  /** The wedge outline, drawn inset by half the line width so that the stroke stays inside R. */
  function Wedge(env: Env, o: TileOptions): Op
  {
    WedgePath(o.tileStyle.GetOr(DefaultFill), LineWidth(env, o), Radius(o) - LineWidth(env, o) / 2.0, Sectors(o) as real)
  }

  // ---------------------------------------------------------------------------
  // The face of a simple tile

  /** getTextLabel when the tile is horizontal, getVerticalTextLabel otherwise. */
  function TileLabel(env: Env, horizontal: bool, text: string, lo: LabelOptions): Result<Surface>
  {
    if horizontal then GetTextLabel(env.metrics, text, lo) else env.verticalLabel(text, lo)
  }

  /** `{ height, align: 'center', font: `${px}px "Clarendon LT Std"`, style }` */
  function FaceText(height: real, px: real, style: Style): LabelOptions
  {
    LabelOptions(None, Some(height), Some(AlignCenter), Some(Clarendon(px)), Some(style), None, None)
  }

  function TextStyle(o: TileOptions): Style
  {
    o.textStyle.GetOr(DefaultText)
  }

  /** The drop shadow every face gets: canvas expanded, distance unit / 15. */
  function FaceShadow(env: Env, o: TileOptions): ShadowOptions
  {
    ShadowOptions(Some(true), None, None, Some(Unit(env, o) / 15.0))
  }

  /** The cent sign as the source spells it, two characters. */
  const CentSign := "\U{C2}\U{A2}"

  function CentLabel(env: Env, o: TileOptions): Surface
  {
    GetTextLabel(env.metrics, CentSign, FaceText(Unit(env, o) * 0.6, Unit(env, o) * 0.6, TextStyle(o))).value
  }

  /** `{ align: 'center' }` for stacking the cent sign over the amount. */
  const CentJoin := JoinOptions(Middle, 0.0, None)

  /** The amount's label: one unit tall, in a font of 1.25 units. */
  function AmountLabel(env: Env, o: TileOptions, amount: int): Result<Surface>
  {
    TileLabel(env, o.horizontal, IntToString(amount), FaceText(Unit(env, o), Unit(env, o) * 1.25, TextStyle(o)))
  }

  /** A number: the cent sign over the amount, centred, shadowed, centred at the top of the tile. */
  function NumberDraw(env: Env, o: TileOptions, amount: int): Result<Op>
  {
    match AmountLabel(env, o, amount)
    case Failure(e) => Failure(e)
    case Success(text) => CentDraw(env, o, text)
  }

  /** The cent sign stacked over the amount's label, shadowed and drawn centred at the top. */
  function CentDraw(env: Env, o: TileOptions, text: Surface): Result<Op>
  {
    JoinPlainModes([CentLabel(env, o), text], Vertical, CentJoin);
    match JoinSpec([CentLabel(env, o), text], Vertical, CentJoin)
    case Failure(e) => Failure(e)
    case Success(joined) =>
      var s := OutlineSpec(joined, DropShadowOutline(FaceShadow(env, o)));
      Success(Draw(s, (TileWidth(env, o) - s.width) / 2.0, 0.0))
  }

  /** A word's label: 0.9 units tall, in a font of one unit. */
  function WordLabel(env: Env, o: TileOptions, text: string): Result<Surface>
  {
    TileLabel(env, o.horizontal, text, FaceText(Unit(env, o) * 0.9, Unit(env, o), TextStyle(o)))
  }

  /** A word: its label, shadowed, centred, a tenth of a unit down, at most 0.6 of the tile tall. */
  function CaptionDraw(env: Env, o: TileOptions, text: string): Result<Op>
  {
    match WordLabel(env, o, text)
    case Failure(e) => Failure(e)
    case Success(made) =>
      var s := OutlineSpec(made, DropShadowOutline(FaceShadow(env, o)));
      Success(DrawScaled(s, (TileWidth(env, o) - s.width) / 2.0, Unit(env, o) / 10.0, s.width,
                         Min(s.height, Radius(o) * 0.6)))
  }

  /** min(WIDTH, HEIGHT / 2): the width the icon is resized to. */
  function IconBox(env: Env, o: TileOptions): real
  {
    Min(TileWidth(env, o), Radius(o) / 2.0)
  }

  /** An icon: resized, shadowed, drawn as a centred square of 3/4 of the box, an eighth of it down. */
  function IconDraw(env: Env, o: TileOptions, image: Surface): Result<Op>
    requires image.width != 0.0
  {
    var ew := IconBox(env, o);
    match Resize(image, ResizeOptions(Some(ew), None))
    case Failure(e) => Failure(e)
    case Success(sized) =>
      var s := OutlineSpec(sized, DropShadowOutline(FaceShadow(env, o)));
      Success(DrawScaled(s, (TileWidth(env, o) - ew * 0.75) / 2.0, ew / 8.0, ew * 0.75, ew * 0.75))
  }

  /** The one draw a simple tile adds after its wedge. */
  function FaceDraw(env: Env, o: TileOptions, content: Content): Result<Op>
    requires !content.Compound? && (content.Icon? ==> content.image.width != 0.0)
  {
    match content
    case Number(amount) => NumberDraw(env, o, amount)
    case Caption(text) => CaptionDraw(env, o, text)
    case Icon(image) => IconDraw(env, o, image)
  }

  // ---------------------------------------------------------------------------
  // Tiles

  /** Icons the tile code can resize: a zero-width image would give a non-finite height. */
  predicate IconsSized(content: Content)
  {
    match content
    case Icon(image) => image.width != 0.0
    case Compound(subtiles) => forall i :: 0 <= i < |subtiles| ==> IconsSized(subtiles[i].content)
    case _ => true
  }

  predicate TileReady(content: Content, o: TileOptions)
  {
    Sectors(o) > 0 && IconsSized(content)
  }

  /**
   * A sub-tile keeps the radius, has N * M sectors and its own styles; `horizontal` is not
   * passed on, so sub-tiles always get the vertical label.
   */
  function SubOptions(o: TileOptions, sub: TileData, m: nat): TileOptions
  {
    TileOptions(Some(Radius(o)), Some(Sectors(o) * m), sub.fillStyle, sub.textStyle, false)
  }

  /** rot_i = theta * (M - 1 - 2i) / (2M), as a fraction of a turn. */
  function SubTurn(n: nat, m: nat, i: nat): real
    requires n > 0 && m > 0
  {
    (m - 1 - 2 * i) as real / (2 * m * n) as real
  }

  /** A tile drawn at the top centre of a 2R x 2R square, ready to be turned about its centre. */
  function Expanded(radius: real, tile: Surface): Surface
  {
    Surface(2.0 * radius, 2.0 * radius, [Draw(tile, (2.0 * radius - tile.width) / 2.0, 0.0)])
  }

  /** A built tile (or its failure), in its 2R x 2R square, turned by `turn`. */
  function SquareOf(radius: real, turn: real, tile: Result<Surface>): (r: Result<Surface>)
    ensures r.Success? <==> tile.Success?
    ensures r.Success? ==> r.value.width == 2.0 * radius && r.value.height == 2.0 * radius
  {
    match tile
    case Failure(e) => Failure(e)
    case Success(t) => Success(GetRotated(Expanded(radius, t), Turns(turn)))
  }

  /** Sub-tile i of a compound tile, rendered with the options its parent gives it. */
  function SubTile(env: Env, parent: Content, o: TileOptions, i: nat): Result<Surface>
    requires parent.Compound? && i < |parent.subtiles| && TileReady(parent, o)
    decreases parent, 0, 0
  {
    var sub := parent.subtiles[i];
    var m := |parent.subtiles|;
    assert Sectors(SubOptions(o, sub, m)) > 0 by {
      PositiveProduct(Sectors(o), m);
    }
    Tile(env, sub.content, SubOptions(o, sub, m))
  }

  /** Sub-tile i of a compound tile, in its square, turned to its slot. */
  function SubSquare(env: Env, parent: Content, o: TileOptions, i: nat): Result<Surface>
    requires parent.Compound? && i < |parent.subtiles| && TileReady(parent, o)
    decreases parent, 0, 1
  {
    SquareOf(Radius(o), SubTurn(Sectors(o), |parent.subtiles|, i), SubTile(env, parent, o, i))
  }

  /** The first k sub-tile squares, in order. */
  function SubSquares(env: Env, parent: Content, o: TileOptions, k: nat): (rs: seq<Result<Surface>>)
    requires parent.Compound? && k <= |parent.subtiles| && TileReady(parent, o)
    ensures |rs| == k
    decreases parent, k, 2
  {
    if k == 0 then [] else SubSquares(env, parent, o, k - 1) + [SubSquare(env, parent, o, k - 1)]
  }

  /** The crop of a compound tile: WIDTH x HEIGHT, horizontally centred, from the top. */
  function TileCrop(env: Env, o: TileOptions): CropOptions
  {
    CropOptions(None, None, Some(TileWidth(env, o)), Some(Radius(o)), Some(Fixed(Centered)), Some(Fixed(Near)))
  }

  /** createWheelOfFortuneTile */
  function Tile(env: Env, content: Content, o: TileOptions): Result<Surface>
    requires TileReady(content, o)
    decreases content, if content.Compound? then |content.subtiles| + 1 else 0, 0
  {
    match content
    case Compound(subtiles) =>
      (match Collect(SubSquares(env, content, o, |subtiles|))
       case Failure(e) => Failure(e)
       case Success(squares) =>
         match SuperimposeSpec(squares, Centered, Centered)
         case Failure(e) => Failure(e)
         case Success(combined) => Success(Crop(combined, TileCrop(env, o))))
    case _ =>
      match FaceDraw(env, o, content)
      case Failure(e) => Failure(e)
      case Success(op) => Success(Surface(TileWidth(env, o), Radius(o), [Wedge(env, o), op]))
  }

  lemma PositiveProduct(a: nat, b: nat)
    requires a > 0 && b > 0
    ensures a * b > 0
  {
  }

  /**
   * createWheelOfFortuneTile: a compound tile builds its sub-tiles in a loop, each one
   * recursively; a simple tile draws its wedge and then its face.
   */
  method CreateTile(env: Env, content: Content, o: TileOptions) returns (r: Result<Surface>)
    requires TileReady(content, o)
    ensures r == Tile(env, content, o)
    decreases content
  {
    var radius := Radius(o);
    var n := Sectors(o);
    if content.Compound? {
      var subtiles := content.subtiles;
      var m := |subtiles|;
      var images: seq<Surface> := [];
      for i := 0 to m
        invariant Collect(SubSquares(env, content, o, i)) == Success(images)
      {
        var sub := subtiles[i];
        PositiveProduct(n, m);
        var subImage := CreateTile(env, sub.content, SubOptions(o, sub, m));
        assert subImage == SubTile(env, content, o, i);
        var square := PlaceTile(radius, SubTurn(n, m, i), subImage);
        CollectSnoc(SubSquares(env, content, o, i), square);
        if square.Failure? {
          SubSquaresFailed(env, content, o, i + 1);
          return Failure(square.error);
        }
        images := images + [square.value];
      }
      var combined := Superimpose(images, Centered, Centered);
      if combined.Failure? {
        return Failure(combined.error);
      }
      return Success(Crop(combined.value, TileCrop(env, o)));
    }
    var canvas := new Canvas(TileWidth(env, o), radius);
    canvas.Paint(Wedge(env, o));
    var face: Result<Op>;
    match content {
      case Number(amount) => face := DrawNumber(env, o, amount);
      case Caption(text) => face := DrawCaption(env, o, text);
      case Icon(image) => face := DrawIcon(env, o, image);
    }
    assert face == FaceDraw(env, o, content);
    if face.Failure? {
      return Failure(face.error);
    }
    canvas.Paint(face.value);
    r := Success(canvas.Snapshot());
    assert canvas.Snapshot() == Surface(TileWidth(env, o), Radius(o), [Wedge(env, o), face.value]);
  }

  /** One step of either wheel loop: a built tile drawn into a 2R x 2R square and turned. */
  method PlaceTile(radius: real, turn: real, tile: Result<Surface>) returns (r: Result<Surface>)
    ensures r == SquareOf(radius, turn, tile)
  {
    if tile.Failure? {
      return Failure(tile.error);
    }
    var expanded := new Canvas(2.0 * radius, 2.0 * radius);
    expanded.Paint(Draw(tile.value, (expanded.width - tile.value.width) / 2.0, 0.0));
    assert expanded.Snapshot() == Expanded(radius, tile.value);
    r := Success(GetRotated(expanded.Snapshot(), Turns(turn)));
  }

  method DrawNumber(env: Env, o: TileOptions, amount: int) returns (r: Result<Op>)
    ensures r == NumberDraw(env, o, amount)
  {
    var text := AmountLabel(env, o, amount);
    if text.Failure? {
      return Failure(text.error);
    }
    r := StackCent(env, o, text.value);
  }

  method StackCent(env: Env, o: TileOptions, text: Surface) returns (r: Result<Op>)
    ensures r == CentDraw(env, o, text)
  {
    var parts := [CentLabel(env, o), text];
    assert TargetCross(parts, Vertical, CentJoin.align) == None;
    var joined := Join(parts, Vertical, CentJoin);
    if joined.Failure? {
      return Failure(joined.error);
    }
    assert joined == JoinSpec([CentLabel(env, o), text], Vertical, CentJoin);
    var shadowed := WithDropShadow(joined.value, FaceShadow(env, o));
    assert shadowed == OutlineSpec(joined.value, DropShadowOutline(FaceShadow(env, o)));
    r := Success(Draw(shadowed, (TileWidth(env, o) - shadowed.width) / 2.0, 0.0));
  }

  method DrawCaption(env: Env, o: TileOptions, text: string) returns (r: Result<Op>)
    ensures r == CaptionDraw(env, o, text)
  {
    var unit := Unit(env, o);
    var made := WordLabel(env, o, text);
    if made.Failure? {
      return Failure(made.error);
    }
    var shadowed := WithDropShadow(made.value, FaceShadow(env, o));
    r := Success(DrawScaled(shadowed, (TileWidth(env, o) - shadowed.width) / 2.0, unit / 10.0, shadowed.width,
                            Min(shadowed.height, Radius(o) * 0.6)));
  }

  method DrawIcon(env: Env, o: TileOptions, image: Surface) returns (r: Result<Op>)
    requires image.width != 0.0
    ensures r == IconDraw(env, o, image)
  {
    var ew := IconBox(env, o);
    var iconWidth := ew * 0.75;
    var sized := Resize(image, ResizeOptions(Some(ew), None));
    if sized.Failure? {
      return Failure(sized.error);
    }
    var icon := WithDropShadow(sized.value, FaceShadow(env, o));
    r := Success(DrawScaled(icon, (TileWidth(env, o) - iconWidth) / 2.0, ew / 8.0, iconWidth, iconWidth));
  }

  /** The first k squares are the first k of any longer run. */
  lemma {:induction false} SubSquaresPrefix(env: Env, parent: Content, o: TileOptions, k: nat, n: nat)
    requires parent.Compound? && k <= n <= |parent.subtiles| && TileReady(parent, o)
    ensures SubSquares(env, parent, o, n)[..k] == SubSquares(env, parent, o, k)
    decreases n
  {
    if k < n {
      SubSquaresPrefix(env, parent, o, k, n - 1);
      assert SubSquares(env, parent, o, n)[..k] == SubSquares(env, parent, o, n - 1)[..k];
    }
  }

  /** A sub-tile that throws ends the compound tile with its error. */
  lemma SubSquaresFailed(env: Env, parent: Content, o: TileOptions, k: nat)
    requires parent.Compound? && k <= |parent.subtiles| && TileReady(parent, o)
    requires Collect(SubSquares(env, parent, o, k)).Failure?
    ensures Tile(env, parent, o) == Failure(Collect(SubSquares(env, parent, o, k)).error)
  {
    var all := SubSquares(env, parent, o, |parent.subtiles|);
    SubSquaresPrefix(env, parent, o, k, |parent.subtiles|);
    CollectFailedPrefix(all, k);
  }

  /** Square i of the first k is sub-tile i's square. */
  lemma {:induction false} SubSquareAt(env: Env, parent: Content, o: TileOptions, k: nat, i: nat)
    requires parent.Compound? && i < k <= |parent.subtiles| && TileReady(parent, o)
    ensures SubSquares(env, parent, o, k)[i] == SubSquare(env, parent, o, i)
    decreases k
  {
    if i < k - 1 {
      SubSquareAt(env, parent, o, k - 1, i);
    }
  }

  // ---------------------------------------------------------------------------
  // The wheel

  /** createWheelOfFortune's own R; its tiles take the default R, which is the same. */
  const WheelRadius := 300.0

  /** Tile i of a wheel of n tiles: n sectors, red on white unless the entry says otherwise. */
  function WheelOptions(t: TileData, n: nat): TileOptions
  {
    TileOptions(None, Some(n), Some(t.fillStyle.GetOr(DefaultFill)), Some(t.textStyle.GetOr(DefaultText)), t.horizontal)
  }

  predicate WheelReady(tiles: seq<TileData>)
  {
    forall i :: 0 <= i < |tiles| ==> IconsSized(tiles[i].content)
  }

  function WheelTile(env: Env, tiles: seq<TileData>, i: nat): Result<Surface>
    requires WheelReady(tiles) && i < |tiles|
  {
    Tile(env, tiles[i].content, WheelOptions(tiles[i], |tiles|))
  }

  /** Tile i in its square, turned by i / N of a full turn. */
  function WheelSquare(env: Env, tiles: seq<TileData>, i: nat): Result<Surface>
    requires WheelReady(tiles) && i < |tiles|
  {
    SquareOf(WheelRadius, i as real / |tiles| as real, WheelTile(env, tiles, i))
  }

  /** What building each of the first k tiles gives, in order. */
  function WheelSquares(env: Env, tiles: seq<TileData>, k: nat): (rs: seq<Result<Surface>>)
    requires WheelReady(tiles) && k <= |tiles|
    ensures |rs| == k && forall i :: 0 <= i < k ==> rs[i] == WheelSquare(env, tiles, i)
  {
    seq(k, i requires 0 <= i < k => WheelSquare(env, tiles, i))
  }

  /** createWheelOfFortune: all the tile squares superimposed, centred. */
  function WheelSpec(env: Env, tiles: seq<TileData>): Result<Surface>
    requires WheelReady(tiles)
  {
    match Collect(WheelSquares(env, tiles, |tiles|))
    case Failure(e) => Failure(e)
    case Success(squares) => SuperimposeSpec(squares, Centered, Centered)
  }

  /** One pass of createWheelOfFortune's loop: tile i, built and placed in its turned square. */
  method BuildSquare(env: Env, tiles: seq<TileData>, i: nat) returns (square: Result<Surface>)
    requires WheelReady(tiles) && i < |tiles|
    ensures square == WheelSquare(env, tiles, i)
  {
    var tile := tiles[i];
    var made := CreateTile(env, tile.content, WheelOptions(tile, |tiles|));
    assert made == WheelTile(env, tiles, i);
    square := PlaceTile(WheelRadius, i as real / |tiles| as real, made);
  }

  method CreateWheel(env: Env, tiles: seq<TileData>) returns (r: Result<Surface>)
    requires WheelReady(tiles)
    ensures r == WheelSpec(env, tiles)
  {
    var n := |tiles|;
    ghost var all := WheelSquares(env, tiles, n);
    var squares: seq<Surface> := [];
    for i := 0 to n
      invariant Collect(all[..i]) == Success(squares)
    {
      var square := BuildSquare(env, tiles, i);
      assert square == all[i];
      CollectStep(all, i);
      if square.Failure? {
        CollectFailedPrefix(all, i + 1);
        return Failure(square.error);
      }
      squares := squares + [square.value];
    }
    assert all[..n] == all;
    r := Superimpose(squares, Centered, Centered);
  }

  // ---------------------------------------------------------------------------
  // Properties of tiles and wheels

  /** Squares collected from built squares of one size all have that size, one per result. */
  lemma CollectedSquares(rs: seq<Result<Surface>>, side: real)
    requires Collect(rs).Success?
    requires forall k :: 0 <= k < |rs| ==> rs[k].Success? ==> rs[k].value.width == side && rs[k].value.height == side
    ensures |Collect(rs).value| == |rs|
    ensures forall k :: 0 <= k < |rs| ==> rs[k].Success? && Collect(rs).value[k] == rs[k].value
    ensures forall k :: 0 <= k < |rs| ==> Collect(rs).value[k].width == side && Collect(rs).value[k].height == side
  {
    CollectSuccess(rs);
  }

  /** Squares of one size, superimposed centred, all land at (0, 0) of a square of that size. */
  lemma SuperimposeSquares(squares: seq<Surface>, side: real, i: nat)
    requires i < |squares|
    requires forall k :: 0 <= k < |squares| ==> squares[k].width == side && squares[k].height == side
    ensures SuperimposeSpec(squares, Centered, Centered).Success?
    ensures SuperimposeSpec(squares, Centered, Centered).value.width == side
    ensures SuperimposeSpec(squares, Centered, Centered).value.height == side
    ensures |SuperimposeSpec(squares, Centered, Centered).value.paint| == |squares|
    ensures SuperimposeSpec(squares, Centered, Centered).value.paint[i] == Draw(squares[i], 0.0, 0.0)
  {
    MaxOfConstant(Widths(squares), side);
    MaxOfConstant(Heights(squares), side);
    StackedIndex(squares, side, side, Centered, Centered, |squares|, i);
    assert AnchorOffset(Centered, side, side) == 0.0 by {
      assert Round(0.0) == 0;
    }
  }

  /** A built square is 2R x 2R whatever the tile in it, since turning keeps the size. */
  lemma SquareSize(radius: real, turn: real, tile: Result<Surface>)
    requires SquareOf(radius, turn, tile).Success?
    ensures tile.Success?
    ensures SquareOf(radius, turn, tile).value.width == 2.0 * radius
    ensures SquareOf(radius, turn, tile).value.height == 2.0 * radius
  {
  }

  /** Every tile is WIDTH x R: a simple tile is drawn that size and a compound one is cropped to it. */
  lemma TileSize(env: Env, content: Content, o: TileOptions)
    requires TileReady(content, o) && Tile(env, content, o).Success?
    ensures Tile(env, content, o).value.width == TileWidth(env, o)
    ensures Tile(env, content, o).value.height == Radius(o)
  {
  }

  /** A compound tile with no sub-tiles has nothing to superimpose and throws. */
  lemma CompoundEmpty(env: Env, o: TileOptions)
    requires Sectors(o) > 0
    ensures Tile(env, Compound([]), o) == Failure(EmptyList)
  {
    assert SubSquares(env, Compound([]), o, 0) == [];
  }

  /** A compound tile is made exactly when it has sub-tiles and every one of them is made. */
  lemma CompoundSuccess(env: Env, subtiles: seq<TileData>, o: TileOptions)
    requires TileReady(Compound(subtiles), o)
    ensures Tile(env, Compound(subtiles), o).Success? <==>
              |subtiles| > 0 && forall i :: 0 <= i < |subtiles| ==> SubTile(env, Compound(subtiles), o, i).Success?
  {
    if |subtiles| == 0 {
      CompoundEmpty(env, o);
    } else if forall i :: 0 <= i < |subtiles| ==> SubTile(env, Compound(subtiles), o, i).Success? {
      CompoundMade(env, subtiles, o);
    } else {
      var k :| 0 <= k < |subtiles| && !SubTile(env, Compound(subtiles), o, k).Success?;
      CompoundThrows(env, subtiles, o, k);
    }
  }

  /** With at least one sub-tile, all of them made, the compound tile is made. */
  lemma CompoundMade(env: Env, subtiles: seq<TileData>, o: TileOptions)
    requires TileReady(Compound(subtiles), o) && |subtiles| > 0
    requires forall i :: 0 <= i < |subtiles| ==> SubTile(env, Compound(subtiles), o, i).Success?
    ensures Tile(env, Compound(subtiles), o).Success?
  {
    var parent := Compound(subtiles);
    var rs := SubSquares(env, parent, o, |subtiles|);
    forall i | 0 <= i < |subtiles|
      ensures rs[i].Success?
    {
      SubSquareAt(env, parent, o, |subtiles|, i);
    }
    CollectSuccess(rs);
    assert |Collect(rs).value| > 0;
  }

  /** A sub-tile that throws makes the whole compound tile throw. */
  lemma CompoundThrows(env: Env, subtiles: seq<TileData>, o: TileOptions, k: nat)
    requires TileReady(Compound(subtiles), o) && k < |subtiles|
    requires !SubTile(env, Compound(subtiles), o, k).Success?
    ensures !Tile(env, Compound(subtiles), o).Success?
  {
    var parent := Compound(subtiles);
    var rs := SubSquares(env, parent, o, |subtiles|);
    SubSquareAt(env, parent, o, |subtiles|, k);
    CollectSuccess(rs);
  }

  /**
   * Sub-tile i of a compound tile is a tile of the same radius in a wheel of N * M sectors,
   * with that entry's own styles and never horizontal text; it is drawn at the top centre of a
   * 2R x 2R square turned to slot i, and the square sits at (0, 0) of the superimposed squares.
   */
  lemma CompoundSlot(env: Env, subtiles: seq<TileData>, o: TileOptions, i: nat)
    requires TileReady(Compound(subtiles), o) && Tile(env, Compound(subtiles), o).Success? && i < |subtiles|
    ensures var so := SubOptions(o, subtiles[i], |subtiles|);
            && Radius(so) == Radius(o) && Sectors(so) == Sectors(o) * |subtiles|
            && so.tileStyle == subtiles[i].fillStyle && so.textStyle == subtiles[i].textStyle && !so.horizontal
    ensures SubTile(env, Compound(subtiles), o, i).Success?
    ensures var t := SubTile(env, Compound(subtiles), o, i).value;
            var combined := Tile(env, Compound(subtiles), o).value.paint[0].src;
            && combined.width == 2.0 * Radius(o) && combined.height == 2.0 * Radius(o)
            && |combined.paint| == |subtiles|
            && combined.paint[i] == Draw(GetRotated(Expanded(Radius(o), t), Turns(SubTurn(Sectors(o), |subtiles|, i))), 0.0, 0.0)
  {
    var parent := Compound(subtiles);
    var rs := SubSquares(env, parent, o, |subtiles|);
    forall k | 0 <= k < |rs|
      ensures rs[k].Success? ==> rs[k].value.width == 2.0 * Radius(o) && rs[k].value.height == 2.0 * Radius(o)
    {
      SubSquareAt(env, parent, o, |subtiles|, k);
    }
    CollectedSquares(rs, 2.0 * Radius(o));
    var squares := Collect(rs).value;
    SubSquareAt(env, parent, o, |subtiles|, i);
    SuperimposeSquares(squares, 2.0 * Radius(o), i);
    assert squares[i] == rs[i].value;
  }

  /** The superimposed squares are cropped to the tile: WIDTH x R, centred, from the top. */
  lemma CompoundCrop(env: Env, subtiles: seq<TileData>, o: TileOptions)
    requires TileReady(Compound(subtiles), o) && Tile(env, Compound(subtiles), o).Success?
    ensures var s := Tile(env, Compound(subtiles), o).value;
            && |s.paint| == 1 && s.paint[0].Draw? && s.paint[0].y == 0.0
            && -0.5 < s.paint[0].x - (TileWidth(env, o) - s.paint[0].src.width) / 2.0 <= 0.5
  {
  }

  /**
   * A simple tile is its wedge, filled with the tile style (red by default) and stroked
   * inside the radius, then exactly one face, drawn by the branch for its content.
   */
  lemma SimpleTile(env: Env, content: Content, o: TileOptions)
    requires TileReady(content, o) && !content.Compound?
    ensures Tile(env, content, o).Success? <==> FaceDraw(env, o, content).Success?
    ensures Tile(env, content, o).Success? ==>
              var s := Tile(env, content, o).value;
              && |s.paint| == 2
              && s.paint[0].WedgePath? && s.paint[0].fill == o.tileStyle.GetOr(Color("red"))
              && s.paint[0].sectors == Sectors(o) as real
              && s.paint[0].outerRadius + s.paint[0].lineWidth / 2.0 == Radius(o)
              && -0.5 < s.paint[0].lineWidth - Unit(env, o) / 12.0 <= 0.5
              && s.paint[1] == FaceDraw(env, o, content).value
              && (content.Number? ==> s.paint[1].Draw?)
              && (!content.Number? ==> s.paint[1].DrawScaled?)
  {
    match content {
      case Number(amount) =>
      case Caption(text) =>
        assert FaceDraw(env, o, content) == CaptionDraw(env, o, text);
      case Icon(image) =>
        assert FaceDraw(env, o, content) == IconDraw(env, o, image);
    }
  }

  /**
   * A number is the cent sign over the amount's label, shadowed and drawn centred at the top
   * of the tile. Across the tile, the amount's label is one unit tall, as wide as its decimal
   * numeral measures in a 1.25-unit Clarendon font, and draws that numeral.
   */
  lemma NumberFace(env: Env, amount: int, o: TileOptions)
    requires NumberDraw(env, o, amount).Success?
    ensures AmountLabel(env, o, amount).Success?
    ensures NumberDraw(env, o, amount) == CentDraw(env, o, AmountLabel(env, o, amount).value)
    ensures o.horizontal ==>
              var t := AmountLabel(env, o, amount).value;
              && t.height == Unit(env, o)
              && t.width == env.metrics.width(IntToString(amount), Clarendon(Unit(env, o) * 1.25))
              && t.paint[0].FillText? && t.paint[0].text == IntToString(amount)
              && t.paint[0].font == Clarendon(Unit(env, o) * 1.25)
  {
    var lo := FaceText(Unit(env, o), Unit(env, o) * 1.25, TextStyle(o));
    assert AmountLabel(env, o, amount) == TileLabel(env, o.horizontal, IntToString(amount), lo);
    assert NumberDraw(env, o, amount) == CentDraw(env, o, AmountLabel(env, o, amount).value);
  }

  /** Across the tile an amount's label never throws: a decimal numeral is never empty. */
  lemma HorizontalAmount(env: Env, amount: int, o: TileOptions)
    requires o.horizontal
    ensures AmountLabel(env, o, amount).Success?
  {
    var lo := FaceText(Unit(env, o), Unit(env, o) * 1.25, TextStyle(o));
    assert AmountLabel(env, o, amount) == GetTextLabel(env.metrics, IntToString(amount), lo);
  }

  /**
   * The cent sign sits on top of the amount, both centred across the wider of the two; the
   * amount starts where the cent sign ends unless the pair is taller than the length cap; the
   * pair is shadowed and centred at the top.
   */
  lemma CentFace(env: Env, o: TileOptions, text: Surface)
    requires CentDraw(env, o, text).Success?
    ensures var face := CentDraw(env, o, text).value;
            var cent := CentLabel(env, o);
            var joined := JoinSpec([cent, text], Vertical, CentJoin).value;
            && face.Draw? && face.y == 0.0 && face.x + face.src.width / 2.0 == TileWidth(env, o) / 2.0
            && face.src.width == joined.width + 2.0 * (Unit(env, o) / 15.0)
            && joined.width == Max(cent.width, text.width)
            && |joined.paint| == 2
            && joined.paint[0].Draw? && joined.paint[0].src == cent && joined.paint[0].y == 0.0
            && joined.paint[0].x == (joined.width - cent.width) / 2.0
            && joined.paint[1].Draw? && joined.paint[1].src == text
            && joined.paint[1].x == (joined.width - text.width) / 2.0
            && (cent.height + text.height <= MaxSafeInteger ==>
                  joined.paint[1].y == cent.height && joined.height == cent.height + text.height)
  {
    var cs := [CentLabel(env, o), text];
    JoinPlainModes(cs, Vertical, CentJoin);
    JoinPlainLayout(cs, Vertical, CentJoin);
    LayoutAt(cs, Vertical, CentJoin, 0);
    LayoutAt(cs, Vertical, CentJoin, 1);
    CentredPair(cs);
    OutlineShape(JoinSpec(cs, Vertical, CentJoin).value, DropShadowOutline(FaceShadow(env, o)));
  }

  /** Two canvases stacked by CentJoin: as wide as the wider, each centred across it, the second right after the first. */
  lemma CentredPair(cs: seq<Surface>)
    requires |cs| == 2
    ensures var s := JoinLayout(cs, Vertical, CentJoin);
            && s.width == Max(cs[0].width, cs[1].width)
            && s.paint[0].x == (s.width - cs[0].width) / 2.0
            && s.paint[1].x == (s.width - cs[1].width) / 2.0
            && (cs[0].height + cs[1].height <= MaxSafeInteger ==>
                  s.paint[1].y == cs[0].height && s.height == cs[0].height + cs[1].height)
  {
    LayoutAt(cs, Vertical, CentJoin, 0);
    LayoutAt(cs, Vertical, CentJoin, 1);
    GeometryShape(cs, Vertical, CentJoin);
    GeometryLostCovers(cs, Vertical, CentJoin);
    assert Crosses(cs, Vertical)[..1] == [cs[0].width];
    var hs := Lengths(cs, Vertical);
    assert hs[..1][..0] == [];
    assert Sum(hs[..1]) == hs[0];
    assert Sum(hs) == cs[0].height + cs[1].height;
    assert Times(1, 0.0) == 0.0;
    assert AlongStart(cs, Vertical, JoinStep(cs, Vertical, CentJoin), 1) == cs[0].height - Geometry(cs, Vertical, CentJoin).lost as real;
  }

  /**
   * A word's label is shadowed and centred, a tenth of a unit down and at most 0.6 of the tile
   * tall, so it always ends within 0.63 of the tile's height.
   */
  lemma CaptionFace(env: Env, text: string, o: TileOptions)
    requires CaptionDraw(env, o, text).Success?
    ensures WordLabel(env, o, text).Success?
    ensures var face := CaptionDraw(env, o, text).value;
            && face.DrawScaled? && face.x + face.w / 2.0 == TileWidth(env, o) / 2.0
            && face.y == Unit(env, o) / 10.0 && face.h <= Radius(o) * 0.6
            && face.y + face.h <= Radius(o) * 0.63
            && face.w == WordLabel(env, o, text).value.width + 2.0 * (Unit(env, o) / 15.0)
  {
    OutlineShape(WordLabel(env, o, text).value, DropShadowOutline(FaceShadow(env, o)));
  }

  /** Horizontal text goes through getTextLabel, so an empty word on a horizontal tile throws. */
  lemma EmptyHorizontalCaption(env: Env, o: TileOptions)
    requires Sectors(o) > 0 && o.horizontal
    ensures Tile(env, Caption(""), o) == Failure(NoText)
  {
    assert WordLabel(env, o, "") == Failure(NoText);
  }

  /**
   * An icon is resized to the box min(WIDTH, R / 2) and drawn as a centred square of 3/4 of
   * the box, an eighth of the box down; on a tile of non-negative width it lies inside the
   * tile's width and above 7/16 of its height.
   */
  lemma IconFace(env: Env, image: Surface, o: TileOptions)
    requires image.width != 0.0 && IconDraw(env, o, image).Success?
    ensures IconBox(env, o) > 0.0
    ensures var face := IconDraw(env, o, image).value;
            var ew := IconBox(env, o);
            && face.DrawScaled? && face.w == ew * 0.75 && face.h == face.w
            && face.x + face.w / 2.0 == TileWidth(env, o) / 2.0 && face.y == ew / 8.0
            && face.y + face.h <= Radius(o) * 0.4375
            && (TileWidth(env, o) >= 0.0 ==> 0.0 <= face.x && face.x + face.w <= TileWidth(env, o))
  {
  }

  /** An icon box that is not positive makes resize throw, and the tile with it. */
  lemma IconBoxTooSmall(env: Env, image: Surface, o: TileOptions)
    requires image.width != 0.0 && Sectors(o) > 0 && IconBox(env, o) <= 0.0
    ensures Tile(env, Icon(image), o) == Failure(NonPositiveWidth)
  {
  }

  /** The empty wheel throws: there is nothing to superimpose. */
  lemma WheelEmpty(env: Env)
    ensures WheelSpec(env, []) == Failure(EmptyList)
  {
    assert WheelSquares(env, [], 0) == [];
  }

  /** A wheel is made exactly when it has tiles and every one of them is made. */
  lemma WheelSuccess(env: Env, tiles: seq<TileData>)
    requires WheelReady(tiles)
    ensures WheelSpec(env, tiles).Success? <==>
              |tiles| > 0 && forall i :: 0 <= i < |tiles| ==> WheelTile(env, tiles, i).Success?
  {
    var rs := WheelSquares(env, tiles, |tiles|);
    CollectSuccess(rs);
    forall i | 0 <= i < |tiles|
      ensures rs[i].Success? <==> WheelTile(env, tiles, i).Success?
    {
      assert rs[i] == WheelSquare(env, tiles, i);
    }
    if Collect(rs).Success? {
      assert |Collect(rs).value| == |tiles|;
    }
  }

  /** Tile i of a wheel of N tiles has N sectors, the default radius and red-on-white unless its entry says otherwise. */
  lemma WheelTileOptions(tiles: seq<TileData>, i: nat)
    requires i < |tiles|
    ensures var wo := WheelOptions(tiles[i], |tiles|);
            && Sectors(wo) == |tiles| && Radius(wo) == WheelRadius
            && wo.tileStyle == Some(tiles[i].fillStyle.GetOr(Color("red")))
            && wo.textStyle == Some(tiles[i].textStyle.GetOr(Color("white")))
            && wo.horizontal == tiles[i].horizontal
  {
  }

  /**
   * Tile i of a made wheel is made and drawn at the top centre of a 600 x 600 square turned
   * by i / N of a turn, and every square lands at (0, 0) of the 600 x 600 wheel.
   */
  lemma WheelSlot(env: Env, tiles: seq<TileData>, i: nat)
    requires WheelReady(tiles) && WheelSpec(env, tiles).Success? && i < |tiles|
    ensures WheelTile(env, tiles, i).Success?
    ensures var s := WheelSpec(env, tiles).value;
            && s.width == 600.0 && s.height == 600.0 && |s.paint| == |tiles|
            && s.paint[i] == Draw(GetRotated(Expanded(WheelRadius, WheelTile(env, tiles, i).value),
                                             Turns(i as real / |tiles| as real)), 0.0, 0.0)
  {
    var rs := WheelSquares(env, tiles, |tiles|);
    forall k | 0 <= k < |rs|
      ensures rs[k].Success? ==> rs[k].value.width == 600.0 && rs[k].value.height == 600.0
    {
      assert rs[k] == WheelSquare(env, tiles, k);
    }
    CollectedSquares(rs, 600.0);
    var squares := Collect(rs).value;
    assert WheelSpec(env, tiles) == SuperimposeSpec(squares, Centered, Centered);
    SuperimposeSquares(squares, 600.0, i);
    assert squares[i] == rs[i].value;
    assert rs[i] == WheelSquare(env, tiles, i);
  }

  /** A tile lands at the top centre of its 2R x 2R square. */
  lemma ExpandedCentres(radius: real, tile: Surface)
    ensures var s := Expanded(radius, tile);
            && s.width == 2.0 * radius && s.height == 2.0 * radius && |s.paint| == 1
            && s.paint[0].Draw? && s.paint[0].src == tile && s.paint[0].y == 0.0
            && s.paint[0].x + tile.width / 2.0 == radius
  {
  }

  // ---------------------------------------------------------------------------
  // Sub-tile slots

  /** The slot turns of all m sub-tiles of a tile in a wheel of n sectors, first k of them. */
  function SubTurns(n: nat, m: nat, k: nat): (ts: seq<real>)
    requires n > 0 && m > 0
    ensures |ts| == k
  {
    if k == 0 then [] else SubTurns(n, m, k - 1) + [SubTurn(n, m, k - 1)]
  }

  lemma QuotientSum(x: real, y: real, d: real)
    requires d > 0.0
    ensures x / d + y / d == (x + y) / d
  {
  }

  lemma QuotientNegate(x: real, d: real)
    requires d > 0.0
    ensures (-x) / d == -(x / d)
  {
  }

  /** 2m * n, the denominator of every slot turn, is positive. */
  lemma SlotDenominator(n: nat, m: nat)
    requires n > 0 && m > 0
    ensures (2 * m * n) as real > 0.0
  {
    PositiveProduct(2 * m, n);
  }

  /** Slots mirror about the wedge's centre line: rot_i = -rot_(M-1-i). */
  lemma SubTurnsMirror(n: nat, m: nat, i: nat)
    requires n > 0 && m > 0 && i < m
    ensures SubTurn(n, m, i) == -SubTurn(n, m, m - 1 - i)
  {
    SlotDenominator(n, m);
    assert (m - 1 - 2 * (m - 1 - i)) as real == -((m - 1 - 2 * i) as real);
    QuotientNegate((m - 1 - 2 * i) as real, (2 * m * n) as real);
  }

  /** The first k slot turns add up to k(m - k) / 2mn. */
  lemma {:induction false} SubTurnsPartialSum(n: nat, m: nat, k: nat)
    requires n > 0 && m > 0
    ensures Sum(SubTurns(n, m, k)) == (k * (m - k)) as real / (2 * m * n) as real
  {
    SlotDenominator(n, m);
    if k > 0 {
      SubTurnsPartialSum(n, m, k - 1);
      SumAppend(SubTurns(n, m, k - 1), SubTurn(n, m, k - 1));
      QuotientSum(((k - 1) * (m - (k - 1))) as real, (m - 1 - 2 * (k - 1)) as real, (2 * m * n) as real);
      assert (k - 1) * (m - (k - 1)) + (m - 1 - 2 * (k - 1)) == k * (m - k);
    }
  }

  /** The slot turns of all the sub-tiles add up to nothing: the sub-tiles are centred on the tile. */
  lemma SubTurnsSumZero(n: nat, m: nat)
    requires n > 0 && m > 0
    ensures Sum(SubTurns(n, m, m)) == 0.0
  {
    SubTurnsPartialSum(n, m, m);
  }

  /** Neighbouring slots are one sub-wedge apart: theta / M, the wedge of a wheel of N * M sectors. */
  lemma SubTurnStep(n: nat, m: nat, i: nat)
    requires n > 0 && m > 0 && i + 1 < m
    ensures n * m > 0
    ensures SubTurn(n, m, i) - SubTurn(n, m, i + 1) == WedgeTurns(n * m)
  {
    PositiveProduct(n, m);
    SlotDenominator(n, m);
    var d := (2 * m * n) as real;
    QuotientNegate((m - 1 - 2 * (i + 1)) as real, d);
    QuotientSum((m - 1 - 2 * i) as real, -((m - 1 - 2 * (i + 1)) as real), d);
    HalfQuotient(2.0, (n * m) as real);
    assert d == 2.0 * (n * m) as real;
  }

  lemma HalfQuotient(x: real, d: real)
    requires d > 0.0
    ensures x / (2.0 * d) == (x / 2.0) / d
  {
  }

  /**
   * The sub-wedges tile the wedge exactly: the first reaches theta / 2 on one side and the
   * last -theta / 2 on the other.
   */
  lemma SubWedgesCover(n: nat, m: nat)
    requires n > 0 && m > 0
    ensures n * m > 0
    ensures SubTurn(n, m, 0) + WedgeTurns(n * m) / 2.0 == WedgeTurns(n) / 2.0
    ensures SubTurn(n, m, m - 1) - WedgeTurns(n * m) / 2.0 == -WedgeTurns(n) / 2.0
  {
    PositiveProduct(n, m);
    SlotDenominator(n, m);
    var d := (2 * m * n) as real;
    HalfQuotient(1.0, (n * m) as real);
    assert d == 2.0 * (n * m) as real;
    QuotientSum((m - 1) as real, 1.0, d);
    CancelFactor(m as real, n as real);
    SubTurnsMirror(n, m, 0);
  }

  /** m / 2mn == 1 / 2n */
  lemma CancelFactor(m: real, n: real)
    requires m > 0.0 && n > 0.0
    ensures m / (2.0 * m * n) == (1.0 / n) / 2.0
  {
    assert (1.0 / n) / 2.0 == 1.0 / (2.0 * n);
    assert m / (2.0 * m * n) * (2.0 * n) == 1.0;
  }
}
