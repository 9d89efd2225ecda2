/** The configuration of a watermark: the caller's props, the settings the
    constructor derives from them (with its defaults), the callbacks that can
    fire, and the input gate `validContentOrImage`. */
module WatermarkProps {
  import opened JsValues
  import opened TileLayout

  /** The props record passed to the constructor. A callback prop is modelled by
      whether it was supplied; what it does is the host's business. */
  datatype Props = Props(
    content: Option<string>,
    tip: Option<string>,
    image: Option<string>,
    imageWidth: Option<int>,
    imageHeight: Option<int>,
    verify: Option<string>,
    fontSize: Option<nat>,
    fontFamily: Option<string>,
    fontWeight: Option<string>,
    color: Option<string>,
    alpha: Option<real>,
    width: Option<int>,
    height: Option<int>,
    maxWidth: Option<int>,
    maxHeight: Option<int>,
    rotate: Option<int>,
    zIndex: Option<int>,
    backgroundPosition: Option<string>,
    onSuccess: bool,
    onWatermarkNull: bool,
    onDestory: bool)

  /** A callback invocation the host can observe. `SecurityIssue` is the default
      `defaultWatermarkNull` warning, used when no `onWatermarkNull` was supplied. */
  datatype Notice = OnSuccess | OnWatermarkNull | SecurityIssue | OnDestory

  /** The instance fields the constructor sets once validation has passed. `rotate` is
      kept in degrees; the source stores the same angle converted to radians. */
  datatype Settings = Settings(
    content: Option<string>,
    tip: Option<string>,
    contentImage: Option<string>,
    imageWidth: int,
    imageHeight: int,
    fontWeight: string,
    fontSize: string,
    fontFamily: string,
    font: string,
    color: string,
    globalAlpha: real,
    rotate: int,
    tile: Tile,
    zIndex: int,
    backgroundPosition: string,
    verify: Option<string>,
    onSuccess: bool,
    onWatermarkNull: bool,
    onDestory: bool)
  {
    /** `this.width`: the tile width. */
    function Width(): int { tile.width }
    /** `this.height`: the tile height. */
    function Height(): int { tile.height }
  }

  const DefaultImageSide: int := 160
  const DefaultFontSize: nat := 14
  const DefaultMinSide: int := 160
  const DefaultMaxSide: int := 320
  const DefaultFontWeight: string := "normal"
  const DefaultFontFamily: string := "Licium, sans-serif"
  const DefaultColor: string := "#666666"
  const DefaultAlpha: real := 0.1
  const DefaultZIndex: int := 2147483647
  const DefaultBackgroundPosition: string := "0px 0px, 0px 0px"

  /** The outcome of the input gate and the callbacks it fired. */
  datatype Verdict = Verdict(ok: bool, notices: seq<Notice>)

  /** `this.onWatermarkNull`: the supplied callback if there is one, else the default warning. */
  function NullNotice(hasOnWatermarkNull: bool): (n: Notice)
    ensures n == OnWatermarkNull <==> hasOnWatermarkNull
    ensures n == OnWatermarkNull || n == SecurityIssue
  {
    if hasOnWatermarkNull then OnWatermarkNull else SecurityIssue
  }

  /** `validContentOrImage`: refuses exactly when there is neither text nor an image,
      and then fires exactly one of the supplied callback or the default warning. */
  function ValidContentOrImage(content: Option<string>, image: Option<string>, hasOnWatermarkNull: bool): (v: Verdict)
    ensures v.ok <==> Truthy(content) || Truthy(image)
    ensures v.ok ==> v.notices == []
    ensures !v.ok ==> |v.notices| == 1 && (v.notices[0] == OnWatermarkNull <==> hasOnWatermarkNull)
    ensures !v.ok ==> v.notices[0] == OnWatermarkNull || v.notices[0] == SecurityIssue
  {
    if !Truthy(content) && !Truthy(image) then Verdict(false, [NullNotice(hasOnWatermarkNull)])
    else Verdict(true, [])
  }

  /** `validContentOrImage()` called with its defaults, i.e. with the instance's own fields.
      An instance whose constructor returned early has every field undefined. */
  function ValidateInstance(s: Option<Settings>): (v: Verdict)
    ensures s.None? ==> !v.ok && v.notices == [SecurityIssue]
    ensures s.Some? ==> v == ValidContentOrImage(s.value.content, s.value.contentImage, s.value.onWatermarkNull)
  {
    match s
    case None => ValidContentOrImage(None, None, false)
    case Some(st) => ValidContentOrImage(st.content, st.contentImage, st.onWatermarkNull)
  }

  /** The notice `this.onWatermarkNull?.()` produces on an instance. */
  function NullNoticeOf(s: Option<Settings>): Notice
  {
    match s
    case None => SecurityIssue
    case Some(st) => NullNotice(st.onWatermarkNull)
  }

  /** What `this.onDestory?.()` fires. */
  function DestoryNotices(s: Option<Settings>): seq<Notice>
  {
    if s.Some? && s.value.onDestory then [OnDestory] else []
  }

  /** The font size the constructor uses (destructuring default 14). */
  function FontSizeOf(p: Props): nat
  {
    p.fontSize.GetOr(DefaultFontSize)
  }

  /** The tile bounds the constructor passes on (destructuring defaults 160 and 320). */
  function BoundsOf(p: Props): (b: Bounds)
    ensures p.width.None? && p.height.None? && p.maxWidth.None? && p.maxHeight.None? ==>
              b == Bounds(160, 160, 320, 320)
    ensures p.width.Some? ==> b.width == p.width.value
    ensures p.width.None? ==> b.width == 160
    ensures p.height.Some? ==> b.height == p.height.value
    ensures p.height.None? ==> b.height == 160
    ensures p.maxWidth.Some? ==> b.maxWidth == p.maxWidth.value
    ensures p.maxWidth.None? ==> b.maxWidth == 320
    ensures p.maxHeight.Some? ==> b.maxHeight == p.maxHeight.value
    ensures p.maxHeight.None? ==> b.maxHeight == 320
  {
    Bounds(p.width.GetOr(DefaultMinSide), p.height.GetOr(DefaultMinSide),
           p.maxWidth.GetOr(DefaultMaxSide), p.maxHeight.GetOr(DefaultMaxSide))
  }

  /** The constructor's field assignments once validation has passed, given the tile
      the layout estimator produced. */
  function Configure(p: Props, tile: Tile): (s: Settings)
    ensures s.font == s.fontWeight + " " + NatToString(FontSizeOf(p)) + "px " + s.fontFamily
    ensures s.fontSize == NatToString(FontSizeOf(p)) + "px"
    ensures Truthy(p.fontWeight) ==> s.fontWeight == p.fontWeight.value
    ensures !Truthy(p.fontWeight) ==> s.fontWeight == "normal"
    ensures Truthy(p.fontFamily) ==> s.fontFamily == p.fontFamily.value
    ensures !Truthy(p.fontFamily) ==> s.fontFamily == "Licium, sans-serif"
    ensures p.alpha == None || p.alpha == Some(0.0) ==> s.globalAlpha == 0.1
    ensures p.alpha.Some? && p.alpha.value != 0.0 ==> s.globalAlpha == p.alpha.value
    ensures p.zIndex == None || p.zIndex == Some(0) ==> s.zIndex == 2147483647
    ensures p.zIndex.Some? && p.zIndex.value != 0 ==> s.zIndex == p.zIndex.value
    ensures Truthy(p.color) ==> s.color == p.color.value
    ensures !Truthy(p.color) ==> s.color == "#666666"
    ensures Truthy(p.backgroundPosition) ==> s.backgroundPosition == p.backgroundPosition.value
    ensures !Truthy(p.backgroundPosition) ==> s.backgroundPosition == "0px 0px, 0px 0px"
    ensures p.rotate.Some? ==> s.rotate == p.rotate.value
    ensures p.rotate.None? ==> s.rotate == 0
    ensures p.imageWidth.Some? ==> s.imageWidth == p.imageWidth.value
    ensures p.imageWidth.None? ==> s.imageWidth == 160
    ensures p.imageHeight.Some? ==> s.imageHeight == p.imageHeight.value
    ensures p.imageHeight.None? ==> s.imageHeight == 160
    ensures s.tile == tile
    ensures s.Width() == tile.width && s.Height() == tile.height
    ensures s.content == p.content && s.contentImage == p.image && s.tip == p.tip && s.verify == p.verify
    ensures s.onSuccess == p.onSuccess && s.onWatermarkNull == p.onWatermarkNull && s.onDestory == p.onDestory
  {
    var weight := OrString(p.fontWeight, DefaultFontWeight);
    var size := NatToString(FontSizeOf(p)) + "px";
    var family := OrString(p.fontFamily, DefaultFontFamily);
    Settings(
      content := p.content,
      tip := p.tip,
      contentImage := p.image,
      imageWidth := p.imageWidth.GetOr(DefaultImageSide),
      imageHeight := p.imageHeight.GetOr(DefaultImageSide),
      fontWeight := weight,
      fontSize := size,
      fontFamily := family,
      font := weight + " " + size + " " + family,
      color := OrString(p.color, DefaultColor),
      globalAlpha := OrReal(p.alpha, DefaultAlpha),
      rotate := p.rotate.GetOr(0),
      tile := tile,
      zIndex := OrInt(p.zIndex, DefaultZIndex),
      backgroundPosition := OrString(p.backgroundPosition, DefaultBackgroundPosition),
      verify := p.verify,
      onSuccess := p.onSuccess,
      onWatermarkNull := p.onWatermarkNull,
      onDestory := p.onDestory)
  }

  /** The default font shorthand: with no font props the font is "normal 14px Licium, sans-serif". */
  lemma DefaultFont(p: Props, tile: Tile)
    requires p.fontSize.None? && p.fontWeight.None? && p.fontFamily.None?
    ensures Configure(p, tile).font == "normal 14px Licium, sans-serif"
  {
    assert NatToString(14) == "14" by {
      assert NatToString(1) == "1";
      assert NatToString(14) == NatToString(1) + [Digit(4)];
    }
  }
}
