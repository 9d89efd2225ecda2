/** The size of one watermark tile, as `getDynamicWidthHeight` works it out.
    The probe element's measured width and the trigonometry of the rotation
    are abstracted into an `Extent` per text run; what is modelled is the
    adding of the font size, the two-armed clamps and the summing. */
module TileLayout {

  /** The tile `getDynamicWidthHeight` returns and the instance caches. */
  datatype Tile = Tile(width: int, height: int, contentWidth: int, tipWidth: int)

  /** One measured text run rotated by the configured angle:
      `across` is `ceil(|cos θ| · offsetWidth)` and `down` is `ceil(|sin θ| · offsetWidth)`,
      both before the font size is added. */
  datatype Extent = Extent(across: nat, down: nat)

  /** What the hidden probe element measured: the content (text or image) and the tip text. */
  datatype Probe = Probe(content: Extent, tip: Extent)

  /** The caller's tile bounds: minimum and maximum width and height. */
  datatype Bounds = Bounds(width: int, height: int, maxWidth: int, maxHeight: int)

  /** The source's clamp: a value below `lo` becomes `lo`; otherwise a value above `hi`
      becomes `hi`. The lower test comes first, so with `lo > hi` the result is `lo` for
      values below `lo` and `hi` for all others. */
  function Clamp(v: int, lo: int, hi: int): (r: int)
    ensures lo <= hi ==> lo <= r <= hi
    ensures lo <= v <= hi ==> r == v
    ensures r == v || r == lo || r == hi
    ensures lo > hi ==> (r == lo <==> v < lo) && (r == lo || r == hi)
    ensures v < lo ==> r == lo
    ensures lo <= v && hi < v ==> r == hi
    ensures lo <= hi ==> r == Max(lo, Min(v, hi))
  {
    if v < lo then lo else if v > hi then hi else v
  }

  function Max(a: int, b: int): int
  {
    if a >= b then a else b
  }

  function Min(a: int, b: int): int
  {
    if a <= b then a else b
  }

  /** The tile for the given measurements: the reference the method below is proved against. */
  function Layout(hasTip: bool, probe: Probe, fontSize: nat, b: Bounds): (t: Tile)
    ensures t.width == t.contentWidth + t.tipWidth
    ensures t.contentWidth == Clamp(probe.content.across + fontSize, b.width, b.maxWidth)
    ensures hasTip ==> t.tipWidth == Clamp(probe.tip.across + fontSize, b.width, b.maxWidth)
    ensures !hasTip ==> t.tipWidth == 0
    ensures hasTip ==> t.height == Clamp(Max(probe.content.down, probe.tip.down) + fontSize, b.height, b.maxHeight)
    ensures !hasTip ==> t.height == Clamp(probe.content.down + fontSize, b.height, b.maxHeight)
    ensures b.width <= b.maxWidth ==> b.width <= t.contentWidth <= b.maxWidth
    ensures hasTip && b.width <= b.maxWidth ==> b.width <= t.tipWidth <= b.maxWidth
    ensures b.height <= b.maxHeight ==> b.height <= t.height <= b.maxHeight
    ensures 0 <= b.width && 0 <= b.maxWidth && 0 <= b.height && 0 <= b.maxHeight ==>
              0 <= t.contentWidth && 0 <= t.tipWidth && 0 <= t.width && 0 <= t.height
  {
    var contentWidth := Clamp(probe.content.across + fontSize, b.width, b.maxWidth);
    var tipWidth := if hasTip then Clamp(probe.tip.across + fontSize, b.width, b.maxWidth) else 0;
    var tipHeight := if hasTip then probe.tip.down + fontSize else 0;
    var h := Clamp(Max(probe.content.down + fontSize, tipHeight), b.height, b.maxHeight);
    Tile(contentWidth + tipWidth, h, contentWidth, tipWidth)
  }

  /** `getDynamicWidthHeight`: the locals are reassigned by the same if/else clamps as in
      the source, and the result is the tile `Layout` describes. */
  method GetDynamicWidthHeight(hasTip: bool, probe: Probe, fontSize: nat, b: Bounds) returns (t: Tile)
    ensures t == Layout(hasTip, probe, fontSize, b)
  {
    var contentWidth := probe.content.across + fontSize;
    var contentHeight := probe.content.down + fontSize;
    var tipWidth := 0;
    var tipHeight := 0;
    if hasTip {
      tipWidth := probe.tip.across + fontSize;
      tipHeight := probe.tip.down + fontSize;
      if tipWidth < b.width {
        tipWidth := b.width;
      } else if tipWidth > b.maxWidth {
        tipWidth := b.maxWidth;
      }
    }
    if contentWidth < b.width {
      contentWidth := b.width;
    } else if contentWidth > b.maxWidth {
      contentWidth := b.maxWidth;
    }
    var h := Max(contentHeight, tipHeight);
    if h < b.height {
      h := b.height;
    } else if h > b.maxHeight {
      h := b.maxHeight;
    }
    t := Tile(contentWidth + tipWidth, h, contentWidth, tipWidth);
  }

  /** The tile never shrinks below what the text needs unless the maximum cuts it:
      when the measured width fits the bounds, the content width is exactly the
      measured width plus the font size. */
  lemma MeasuredWidthKeptWithinBounds(hasTip: bool, probe: Probe, fontSize: nat, b: Bounds)
    requires b.width <= probe.content.across + fontSize <= b.maxWidth
    ensures Layout(hasTip, probe, fontSize, b).contentWidth == probe.content.across + fontSize
  {
  }

  /** A taller tip raises the tile: the height is governed by the larger of the two runs. */
  lemma HeightCoversBothRuns(hasTip: bool, probe: Probe, fontSize: nat, b: Bounds)
    requires b.height <= b.maxHeight
    ensures var t := Layout(hasTip, probe, fontSize, b);
      (probe.content.down + fontSize <= b.maxHeight ==> probe.content.down + fontSize <= t.height) &&
      (hasTip && probe.tip.down + fontSize <= b.maxHeight ==> probe.tip.down + fontSize <= t.height)
  {
  }
}
