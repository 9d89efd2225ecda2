/** The rasterizer: `draw` as the list of 2D-context commands it issues on a
    canvas of the tile's size (or the image it passes through), a small
    interpreter of those commands that says where and how each text run ends
    up, and `getImage`, which turns the drawing into the image string the
    overlay tiles. Canvas creation, the device-pixel-ratio scaling and the
    PNG encoding are the environment's: `surfaceOk` says whether a 2D context
    could be obtained, `encode` is `toDataURL` (`None` when it throws). */
module Rasterizer {
  import opened JsValues
  import opened TileLayout
  import opened WatermarkProps

  /** A call on the 2D context. `Rotate` carries the configured angle in degrees. */
  datatype Command =
    | SetFont(font: string)
    | SetTextAlign(align: string)
    | SetTextBaseline(baseline: string)
    | SetFillStyle(color: string)
    | SetGlobalAlpha(alpha: real)
    | Save
    | Restore
    | Translate(x: real, y: real)
    | Rotate(degrees: int)
    | FillText(text: string, x: real, y: real)

  /** A canvas in logical pixels and what was drawn on it, in order. */
  datatype Canvas = Canvas(width: int, height: int, commands: seq<Command>)

  /** How the `draw` promise settles: `null` (`Nothing`), rejected because no drawing
      surface could be set up (`Rejected`), a drawn canvas, or the image string itself. */
  datatype Drawing = Nothing | Rejected | Drawn(canvas: Canvas) | Passthrough(image: string)

  datatype DrawOutcome = DrawOutcome(drawing: Drawing, notices: seq<Notice>)

  /** The paint state configured once before any text is drawn. */
  function PaintSetup(s: Settings): seq<Command>
  {
    [SetFont(s.font), SetTextAlign("center"), SetTextBaseline("middle"),
     SetFillStyle(s.color), SetGlobalAlpha(s.globalAlpha)]
  }

  /** One text run in a save/restore bracket: move the origin, rotate, draw at the origin. */
  function Bracketed(text: string, x: real, y: real, degrees: int): seq<Command>
  {
    [Save, Translate(x, y), Rotate(degrees), FillText(text, 0.0, 0.0), Restore]
  }

  /** The commands `draw` issues for text content. */
  function TextCommands(s: Settings): seq<Command>
    requires s.content.Some?
  {
    var half := s.Height() as real / 2.0;
    var cw := s.tile.contentWidth as real;
    PaintSetup(s) +
    if Truthy(s.tip) then
      Bracketed(s.content.value, cw / 2.0, half, s.rotate) +
      Bracketed(s.tip.value, s.tile.tipWidth as real / 2.0 + cw, half, s.rotate)
    else
      [Translate(s.Width() as real / 2.0, half), Rotate(s.rotate), FillText(s.content.value, 0.0, 0.0)]
  }

  /** Whether `draw` reports a verification mismatch: `verify` is set and differs from the content. */
  predicate Mismatch(s: Settings)
  {
    Truthy(s.verify) && s.content != s.verify
  }

  /** `draw`: validate; set up the canvas; report a mismatch but keep drawing; then draw
      the text or pass the image through. */
  function Draw(s: Option<Settings>, surfaceOk: bool): (d: DrawOutcome)
    ensures d.drawing == Nothing <==> !ValidateInstance(s).ok
    ensures d.drawing == Nothing ==> d.notices == ValidateInstance(s).notices
    ensures ValidateInstance(s).ok && !surfaceOk ==> d.drawing == Rejected && d.notices == []
    ensures ValidateInstance(s).ok && surfaceOk ==>
              s.Some? && d.notices == (if Mismatch(s.value) then [NullNotice(s.value.onWatermarkNull)] else [])
    ensures ValidateInstance(s).ok && surfaceOk && Truthy(s.value.content) ==>
              d.drawing.Drawn? &&
              d.drawing.canvas.width == s.value.tile.width && d.drawing.canvas.height == s.value.tile.height
    ensures ValidateInstance(s).ok && surfaceOk && !Truthy(s.value.content) ==>
              s.value.contentImage.Some? && d.drawing == Passthrough(s.value.contentImage.value)
  {
    var v := ValidateInstance(s);
    if !v.ok then DrawOutcome(Nothing, v.notices)
    else if !surfaceOk then DrawOutcome(Rejected, [])
    else
      var st := s.value;
      var warned := if Mismatch(st) then [NullNotice(st.onWatermarkNull)] else [];
      if Truthy(st.content) then
        DrawOutcome(Drawn(Canvas(st.Width(), st.Height(), TextCommands(st))), warned)
      else
        DrawOutcome(Passthrough(st.contentImage.value), warned)
  }

  // ----- What the commands do to a canvas -----

  /** The part of the drawing state that text is painted with. */
  datatype Paint = Paint(font: string, align: string, baseline: string, fill: string, alpha: real)

  /** One transformation applied to the coordinate system. */
  datatype Transform = TranslateBy(x: real, y: real) | RotateBy(degrees: int)

  /** The drawing state save/restore acts on. */
  datatype State = State(paint: Paint, transform: seq<Transform>)

  /** A text run as it lands on the canvas: drawn at (x, y) of the coordinate system
      reached by `transform` from the canvas's base system, with `paint`. */
  datatype Placement = Placement(text: string, x: real, y: real, paint: Paint, transform: seq<Transform>)

  /** The context: the current state, the stack of saved states, and the text drawn so far. */
  datatype Context = Context(current: State, saved: seq<State>, placed: seq<Placement>)

  /** A fresh 2D context: the platform's default paint, no transformation, nothing drawn. */
  const Fresh: Context := Context(State(Paint("10px sans-serif", "start", "alphabetic", "#000000", 1.0), []), [], [])

  function Step(c: Context, cmd: Command): Context
  {
    var cur := c.current;
    match cmd
    case SetFont(f) => c.(current := cur.(paint := cur.paint.(font := f)))
    case SetTextAlign(a) => c.(current := cur.(paint := cur.paint.(align := a)))
    case SetTextBaseline(b) => c.(current := cur.(paint := cur.paint.(baseline := b)))
    case SetFillStyle(f) => c.(current := cur.(paint := cur.paint.(fill := f)))
    case SetGlobalAlpha(a) => c.(current := cur.(paint := cur.paint.(alpha := a)))
    case Save => c.(saved := c.saved + [cur])
    case Restore =>
      // restoring with nothing saved does nothing
      if c.saved == [] then c
      else c.(current := c.saved[|c.saved| - 1], saved := c.saved[..|c.saved| - 1])
    case Translate(x, y) => c.(current := cur.(transform := cur.transform + [TranslateBy(x, y)]))
    case Rotate(d) => c.(current := cur.(transform := cur.transform + [RotateBy(d)]))
    case FillText(t, x, y) => c.(placed := c.placed + [Placement(t, x, y, cur.paint, cur.transform)])
  }

  /** The context after issuing the commands in order. */
  function Run(c: Context, cmds: seq<Command>): Context
    decreases |cmds|
  {
    if cmds == [] then c else Run(Step(c, cmds[0]), cmds[1..])
  }

  lemma {:induction false} RunAppend(c: Context, a: seq<Command>, b: seq<Command>)
    ensures Run(c, a + b) == Run(Run(c, a), b)
    decreases |a|
  {
    if a == [] {
      assert a + b == b;
    } else {
      assert (a + b)[0] == a[0];
      assert (a + b)[1..] == a[1..] + b;
      RunAppend(Step(c, a[0]), a[1..], b);
    }
  }

  /** The paint text is drawn with once `PaintSetup` has run. */
  function PaintOf(s: Settings): Paint
  {
    Paint(s.font, "center", "middle", s.color, s.globalAlpha)
  }

  /** Issuing a command and then the rest is issuing them all. */
  lemma RunStep(c: Context, cmd: Command, rest: seq<Command>)
    ensures Run(c, [cmd] + rest) == Run(Step(c, cmd), rest)
  {
    assert ([cmd] + rest)[1..] == rest;
  }

  lemma SetupPaints(c: Context, s: Settings)
    ensures Run(c, PaintSetup(s)) == c.(current := c.current.(paint := PaintOf(s)))
  {
    var c1 := Step(c, SetFont(s.font));
    var c2 := Step(c1, SetTextAlign("center"));
    var c3 := Step(c2, SetTextBaseline("middle"));
    var c4 := Step(c3, SetFillStyle(s.color));
    var c5 := Step(c4, SetGlobalAlpha(s.globalAlpha));
    RunStep(c, SetFont(s.font), [SetTextAlign("center"), SetTextBaseline("middle"), SetFillStyle(s.color), SetGlobalAlpha(s.globalAlpha)]);
    RunStep(c1, SetTextAlign("center"), [SetTextBaseline("middle"), SetFillStyle(s.color), SetGlobalAlpha(s.globalAlpha)]);
    RunStep(c2, SetTextBaseline("middle"), [SetFillStyle(s.color), SetGlobalAlpha(s.globalAlpha)]);
    RunStep(c3, SetFillStyle(s.color), [SetGlobalAlpha(s.globalAlpha)]);
    RunStep(c4, SetGlobalAlpha(s.globalAlpha), []);
  }

  /** A bracketed run draws its text once, at the translated and rotated origin,
      and leaves the drawing state exactly as it found it. */
  lemma BracketedRestores(c: Context, text: string, x: real, y: real, degrees: int)
    ensures Run(c, Bracketed(text, x, y, degrees)) ==
              c.(placed := c.placed + [Placement(text, 0.0, 0.0, c.current.paint,
                                                 c.current.transform + [TranslateBy(x, y), RotateBy(degrees)])])
  {
    var moved := c.current.(transform := c.current.transform + [TranslateBy(x, y), RotateBy(degrees)]);
    var c3 := Context(moved, c.saved + [c.current], c.placed);
    var c4 := c3.(placed := c.placed + [Placement(text, 0.0, 0.0, c.current.paint, moved.transform)]);
    RunStep(c, Save, [Translate(x, y), Rotate(degrees), FillText(text, 0.0, 0.0), Restore]);
    RunStep(Step(c, Save), Translate(x, y), [Rotate(degrees), FillText(text, 0.0, 0.0), Restore]);
    RunStep(Step(Step(c, Save), Translate(x, y)), Rotate(degrees), [FillText(text, 0.0, 0.0), Restore]);
    assert Step(Step(Step(c, Save), Translate(x, y)), Rotate(degrees)) == c3 by {
      assert c.current.transform + [TranslateBy(x, y)] + [RotateBy(degrees)] ==
             c.current.transform + [TranslateBy(x, y), RotateBy(degrees)];
    }
    RunStep(c3, FillText(text, 0.0, 0.0), [Restore]);
    assert Step(c3, FillText(text, 0.0, 0.0)) == c4;
    RunStep(c4, Restore, []);
    assert (c.saved + [c.current])[..|c.saved|] == c.saved;
    assert Step(c4, Restore) == c.(placed := c4.placed);
  }

  /** What `draw` puts on the canvas for text content. With a tip: the content and the tip,
      each rotated about the centre of its own sub-width (x = contentWidth/2 and
      x = contentWidth + tipWidth/2, y = height/2), the rotation not carried from one run to
      the next, and the state left as it was. Without a tip: the content once, rotated about
      the tile centre. Every run uses the configured font, colour and alpha, centred. */
  lemma {:induction false} DrawPlacesText(s: Option<Settings>, surfaceOk: bool)
    requires Draw(s, surfaceOk).drawing.Drawn?
    ensures var st := s.value;
      var out := Run(Fresh, Draw(s, surfaceOk).drawing.canvas.commands);
      var h := st.Height() as real / 2.0;
      var cw := st.tile.contentWidth as real;
      && st.content.Some?
      && (Truthy(st.tip) ==>
            out.placed == [Placement(st.content.value, 0.0, 0.0, PaintOf(st), [TranslateBy(cw / 2.0, h), RotateBy(st.rotate)]),
                           Placement(st.tip.value, 0.0, 0.0, PaintOf(st), [TranslateBy(cw + st.tile.tipWidth as real / 2.0, h), RotateBy(st.rotate)])]
            && out.current.transform == [] && out.saved == [])
      && (!Truthy(st.tip) ==>
            out.placed == [Placement(st.content.value, 0.0, 0.0, PaintOf(st), [TranslateBy(st.Width() as real / 2.0, h), RotateBy(st.rotate)])])
  {
    var st := s.value;
    var cmds := TextCommands(st);
    assert Draw(s, surfaceOk).drawing.canvas.commands == cmds;
    var setup := PaintSetup(st);
    var c0 := Run(Fresh, setup);
    SetupPaints(Fresh, st);
    assert c0.placed == [] && c0.saved == [] && c0.current.transform == [] && c0.current.paint == PaintOf(st);
    var h := st.Height() as real / 2.0;
    var cw := st.tile.contentWidth as real;
    if Truthy(st.tip) {
      var first := Bracketed(st.content.value, cw / 2.0, h, st.rotate);
      var second := Bracketed(st.tip.value, st.tile.tipWidth as real / 2.0 + cw, h, st.rotate);
      assert cmds == setup + (first + second);
      RunAppend(Fresh, setup, first + second);
      RunAppend(c0, first, second);
      BracketedRestores(c0, st.content.value, cw / 2.0, h, st.rotate);
      BracketedRestores(Run(c0, first), st.tip.value, st.tile.tipWidth as real / 2.0 + cw, h, st.rotate);
      var p1 := Placement(st.content.value, 0.0, 0.0, PaintOf(st), [TranslateBy(cw / 2.0, h), RotateBy(st.rotate)]);
      var p2 := Placement(st.tip.value, 0.0, 0.0, PaintOf(st), [TranslateBy(st.tile.tipWidth as real / 2.0 + cw, h), RotateBy(st.rotate)]);
      assert [] + [TranslateBy(cw / 2.0, h), RotateBy(st.rotate)] == [TranslateBy(cw / 2.0, h), RotateBy(st.rotate)];
      var c1 := Run(c0, first);
      assert c1 == c0.(placed := [p1]);
      assert [] + [TranslateBy(st.tile.tipWidth as real / 2.0 + cw, h), RotateBy(st.rotate)] ==
             [TranslateBy(st.tile.tipWidth as real / 2.0 + cw, h), RotateBy(st.rotate)];
      assert Run(c1, second) == c1.(placed := [p1] + [p2]);
      assert st.tile.tipWidth as real / 2.0 + cw == cw + st.tile.tipWidth as real / 2.0;
    } else {
      var t := Translate(st.Width() as real / 2.0, h);
      var r := Rotate(st.rotate);
      var f := FillText(st.content.value, 0.0, 0.0);
      assert cmds == setup + [t, r, f];
      RunAppend(Fresh, setup, [t, r, f]);
      RunStep(c0, t, [r, f]);
      RunStep(Step(c0, t), r, [f]);
      RunStep(Step(Step(c0, t), r), f, []);
      assert [] + [TranslateBy(st.Width() as real / 2.0, h)] + [RotateBy(st.rotate)] ==
             [TranslateBy(st.Width() as real / 2.0, h), RotateBy(st.rotate)];
    }
  }

  /** Both text origins lie in the tile: the content's in its own sub-width, the tip's in
      the part of the tile after it; all at mid-height. */
  lemma TipOriginsInsideTheirRegions(p: Props, probe: Probe)
    requires var b := BoundsOf(p); 0 <= b.width && 0 <= b.maxWidth && 0 <= b.height && 0 <= b.maxHeight
    ensures var st := Configure(p, Layout(Truthy(p.tip), probe, FontSizeOf(p), BoundsOf(p)));
      var cw := st.tile.contentWidth as real;
      && 0.0 <= cw / 2.0 <= cw
      && cw <= cw + st.tile.tipWidth as real / 2.0 <= st.Width() as real
      && 0.0 <= st.Height() as real / 2.0 <= st.Height() as real
  {
    var t := Layout(Truthy(p.tip), probe, FontSizeOf(p), BoundsOf(p));
    assert 0 <= t.contentWidth && 0 <= t.tipWidth && 0 <= t.height;
  }

  // ----- getImage -----

  /** What `getImage` resolves to (`None` for `undefined`) and the callbacks it fired. */
  datatype ImageOutcome = ImageOutcome(image: Option<string>, notices: seq<Notice>)

  /** `getImage`: `undefined` when `draw` gave `null`; the image string unchanged for image
      content; the encoded canvas for text; and `""` with one `onWatermarkNull` when `draw`
      rejected or encoding threw. */
  function GetImage(s: Option<Settings>, surfaceOk: bool, encode: Canvas -> Option<string>): (r: ImageOutcome)
    ensures r.image == None <==> !ValidateInstance(s).ok
    ensures !ValidateInstance(s).ok ==> r.notices == ValidateInstance(s).notices
    ensures ValidateInstance(s).ok && !surfaceOk ==> r == ImageOutcome(Some(""), [NullNoticeOf(s)])
    ensures ValidateInstance(s).ok && surfaceOk && !Truthy(s.value.content) ==>
              r.image == s.value.contentImage && r.notices == Draw(s, surfaceOk).notices
    ensures ValidateInstance(s).ok && surfaceOk && Truthy(s.value.content) ==>
              var canvas := Draw(s, surfaceOk).drawing.canvas;
              (encode(canvas).Some? ==> r == ImageOutcome(encode(canvas), Draw(s, surfaceOk).notices)) &&
              (encode(canvas).None? ==> r == ImageOutcome(Some(""), Draw(s, surfaceOk).notices + [NullNoticeOf(s)]))
  {
    var d := Draw(s, surfaceOk);
    match d.drawing
    case Nothing => ImageOutcome(None, d.notices)
    case Rejected => ImageOutcome(Some(""), d.notices + [NullNoticeOf(s)])
    case Passthrough(img) => ImageOutcome(Some(img), d.notices)
    case Drawn(canvas) =>
      match encode(canvas)
      case Some(url) => ImageOutcome(Some(url), d.notices)
      case None => ImageOutcome(Some(""), d.notices + [NullNoticeOf(s)])
  }
}
