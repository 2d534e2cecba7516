/**
 `CanvasDrawingService` (src/services/CanvasDrawingService.js): a wrapper
 around one canvas and its 2D context that resolves style options and issues
 path commands.
 */
module DrawingService {
  import opened Wrappers
  import opened Canvas
  import Shapes

  /** The options object of `setStyle`; a missing property is `None`. */
  datatype StyleOptions = StyleOptions(
    strokeStyle: Option<string>,
    fillStyle: Option<string>,
    lineWidth: Option<real>,
    globalAlpha: Option<real>,
    tool: Option<string>,
    darkMode: bool)

  /** JavaScript truthiness of an optional string: present and non-empty. */
  predicate TruthyString(o: Option<string>) {
    o.Some? && o.value != ""
  }

  /** JavaScript truthiness of an optional number: present and non-zero. */
  predicate TruthyNumber(o: Option<real>) {
    o.Some? && o.value != 0.0
  }

  const HighlighterAlpha: real := 0.5
  const HighlighterWidthFactor: real := 2.5

  /** The four conditional overwrites at the start of `setStyle`. */
  function ApplyOptions(s: Style, o: StyleOptions): Style {
    var s1 := if TruthyString(o.strokeStyle) then s.(strokeStyle := o.strokeStyle.value) else s;
    var s2 := if TruthyString(o.fillStyle) then s1.(fillStyle := o.fillStyle.value) else s1;
    var s3 := if TruthyNumber(o.lineWidth) then s2.(lineWidth := o.lineWidth.value) else s2;
    if TruthyNumber(o.globalAlpha) then s3.(globalAlpha := o.globalAlpha.value) else s3
  }

  /** The eraser and highlighter special cases that follow them. */
  function ApplyTool(s: Style, o: StyleOptions): Style {
    var s1 := if o.tool == Some("eraser") then s.(strokeStyle := Background(o.darkMode)) else s;
    if o.tool == Some("highlighter") then
      s1.(globalAlpha := HighlighterAlpha,
          lineWidth := (if TruthyNumber(o.lineWidth) then o.lineWidth.value else s1.lineWidth)
                       * HighlighterWidthFactor)
    else s1
  }

  /** The context style after `setStyle(o)` on a context with style s. */
  function ResolveStyle(s: Style, o: StyleOptions): Style {
    ApplyTool(ApplyOptions(s, o), o)
  }

  /** The value an option leaves in a field: the option when truthy, else the old value. */
  function StringOr(o: Option<string>, old_: string): string {
    if TruthyString(o) then o.value else old_
  }

  function NumberOr(o: Option<real>, old_: real): real {
    if TruthyNumber(o) then o.value else old_
  }

  /** For any tool but the eraser and the highlighter, only truthy options
      change the context, each its own field; everything else keeps its value. */
  lemma SetStylePlainTool(s: Style, o: StyleOptions)
    requires o.tool != Some("eraser") && o.tool != Some("highlighter")
    ensures ResolveStyle(s, o)
         == s.(strokeStyle := StringOr(o.strokeStyle, s.strokeStyle),
               fillStyle := StringOr(o.fillStyle, s.fillStyle),
               lineWidth := NumberOr(o.lineWidth, s.lineWidth),
               globalAlpha := NumberOr(o.globalAlpha, s.globalAlpha))
  {
  }

  /** Whatever the tool: fill style follows the truthy rule, and line cap, line
      join and dash pattern are never touched. */
  lemma SetStyleUntouched(s: Style, o: StyleOptions)
    ensures var r := ResolveStyle(s, o);
      r.fillStyle == StringOr(o.fillStyle, s.fillStyle)
      && r.lineCap == s.lineCap && r.lineJoin == s.lineJoin && r.lineDash == s.lineDash
  {
  }

  /** The eraser strokes with the background colour of the current mode,
      whatever stroke style was passed; width and alpha follow the truthy rule. */
  lemma SetStyleEraser(s: Style, o: StyleOptions)
    requires o.tool == Some("eraser")
    ensures var r := ResolveStyle(s, o);
      r.strokeStyle == (if o.darkMode then "#282c34" else "white")
      && r.lineWidth == NumberOr(o.lineWidth, s.lineWidth)
      && r.globalAlpha == NumberOr(o.globalAlpha, s.globalAlpha)
    ensures forall c :: ResolveStyle(s, o.(strokeStyle := c)) == ResolveStyle(s, o)
  {
  }

  /** The highlighter draws at half opacity, 2.5 times as wide as the given line
      width or, when none is given, the current one. */
  lemma SetStyleHighlighter(s: Style, o: StyleOptions)
    requires o.tool == Some("highlighter")
    ensures var r := ResolveStyle(s, o);
      r.globalAlpha == 0.5
      && r.lineWidth == 2.5 * NumberOr(o.lineWidth, s.lineWidth)
      && r.strokeStyle == StringOr(o.strokeStyle, s.strokeStyle)
  {
  }

  /** Applying the same options twice is the same as once, except with the
      highlighter. */
  lemma SetStyleIdempotent(s: Style, o: StyleOptions)
    requires o.tool != Some("highlighter")
    ensures ResolveStyle(ResolveStyle(s, o), o) == ResolveStyle(s, o)
  {
  }

  /** With the highlighter and no line width given, every call widens the line
      again: two calls give 6.25 times the width. */
  lemma HighlighterWidthCompounds(s: Style, o: StyleOptions)
    requires o.tool == Some("highlighter") && !TruthyNumber(o.lineWidth)
    ensures ResolveStyle(ResolveStyle(s, o), o).lineWidth == 6.25 * s.lineWidth
  {
  }

  /** Commands of `startPath(x, y)`. */
  function StartPathCommands(x: real, y: real): seq<Command> {
    [BeginPath, MoveTo(At(x, y))]
  }

  /** Commands of `continuePath(x, y)`. */
  function ContinuePathCommands(x: real, y: real): seq<Command> {
    [LineTo(At(x, y)), Stroke]
  }

  /** Commands of `drawLine(startX, startY, endX, endY)`. */
  function DrawLineCommands(startX: real, startY: real, endX: real, endY: real): seq<Command> {
    [BeginPath, MoveTo(At(startX, startY)), LineTo(At(endX, endY)), Stroke]
  }

  /** A straight line is a one-segment stroke: start a path, then continue it once. */
  lemma DrawLineIsStartThenContinue(startX: real, startY: real, endX: real, endY: real)
    ensures DrawLineCommands(startX, startY, endX, endY)
         == StartPathCommands(startX, startY) + ContinuePathCommands(endX, endY)
  {
  }

  /** The path `drawShape` of the service builds: a circle is centred at (x, y)
      and a rectangle spans (x, y, width, height); any other kind adds nothing. */
  function ServiceGeometry(p: Shapes.ShapeParams): seq<Command> {
    if p.shape == "circle" then [Arc(p.x, p.y, p.radius, PiTimes(0.0), PiTimes(2.0))]
    else if p.shape == "rectangle" then [Rect(p.x, p.y, p.width, p.height)]
    else []
  }

  /** The service's `arc` call throws: a circle with a negative radius. */
  predicate ServiceAborts(p: Shapes.ShapeParams) {
    p.shape == "circle" && ArcThrows(p.radius)
  }

  /** Everything the service's `drawShape` issues: the path is stroked and
      filled unless `arc` throws first. */
  function ServiceShapeCommands(p: Shapes.ShapeParams): seq<Command> {
    if ServiceAborts(p) then [BeginPath] else [BeginPath] + ServiceGeometry(p) + [Stroke, Fill]
  }

  /** A shape kind other than circle and rectangle, squares and stars included,
      emits no geometry but is still stroked and filled. */
  lemma ServiceOtherShape(p: Shapes.ShapeParams)
    requires p.shape != "circle" && p.shape != "rectangle"
    ensures ServiceShapeCommands(p) == [BeginPath, Stroke, Fill]
  {
  }

  /** The service's rectangle is the utility's committed rectangle, less the
      utility's second (empty-path) `beginPath`. */
  lemma ServiceRectangleMatchesUtility(p: Shapes.ShapeParams)
    requires p.shape == "rectangle" && !p.preview
    ensures Shapes.ShapeCommands(p) == [BeginPath] + ServiceShapeCommands(p)
  {
  }

  /** The two circle renderings differ: the service centres the arc at (x, y),
      the utility at (x + radius, y + radius); radius and sweep agree. */
  lemma ServiceCircleOffset(p: Shapes.ShapeParams)
    requires p.shape == "circle"
    ensures var a := ServiceGeometry(p)[0];
      var u := Shapes.ShapeGeometry(p)[1];
      a.Arc? && u.Arc?
      && a.cx == u.cx - p.radius && a.cy == u.cy - p.radius
      && a.radius == u.radius && a.startAngle == u.startAngle && a.endAngle == u.endAngle
  {
  }

  /** Both renderings give up on the same circles, those with a negative radius,
      and the service then neither strokes nor fills. */
  lemma ServiceAbortsLikeUtility(p: Shapes.ShapeParams)
    ensures ServiceAborts(p) <==> Shapes.Aborts(p)
    ensures ServiceAborts(p) ==> Stroke !in ServiceShapeCommands(p) && Fill !in ServiceShapeCommands(p)
  {
  }

  class CanvasDrawingService {
    const ctx: Context2D
    /** `canvas.width` and `canvas.height`. */
    const width: nat
    const height: nat

    /** `new CanvasDrawingService(canvas)`: the context gets round caps and joins. */
    constructor (ctx: Context2D, width: nat, height: nat)
      modifies ctx
      ensures this.ctx == ctx && this.width == width && this.height == height
      ensures ctx.CurrentStyle() == old(ctx.CurrentStyle()).(lineCap := "round", lineJoin := "round")
      ensures ctx.log == old(ctx.log)
    {
      this.ctx := ctx;
      this.width := width;
      this.height := height;
      new;
      InitializeContext();
    }

    /** `initializeContext()`. */
    method InitializeContext()
      modifies ctx
      ensures ctx.CurrentStyle() == old(ctx.CurrentStyle()).(lineCap := "round", lineJoin := "round")
      ensures ctx.log == old(ctx.log)
    {
      ctx.lineCap := "round";
      ctx.lineJoin := "round";
    }

    /** `setStyle(options)`. */
    method SetStyle(o: StyleOptions)
      modifies ctx
      ensures ctx.CurrentStyle() == ResolveStyle(old(ctx.CurrentStyle()), o)
      ensures ctx.log == old(ctx.log)
    {
      if TruthyString(o.strokeStyle) { ctx.strokeStyle := o.strokeStyle.value; }
      if TruthyString(o.fillStyle) { ctx.fillStyle := o.fillStyle.value; }
      if TruthyNumber(o.lineWidth) { ctx.lineWidth := o.lineWidth.value; }
      if TruthyNumber(o.globalAlpha) { ctx.globalAlpha := o.globalAlpha.value; }

      if o.tool == Some("eraser") {
        ctx.strokeStyle := Background(o.darkMode);
      }

      if o.tool == Some("highlighter") {
        ctx.globalAlpha := HighlighterAlpha;
        ctx.lineWidth := (if TruthyNumber(o.lineWidth) then o.lineWidth.value else ctx.lineWidth)
                         * HighlighterWidthFactor;
      }
    }

    /** `startPath(x, y)`. */
    method StartPath(x: real, y: real)
      modifies ctx
      ensures ctx.log == old(ctx.log) + StartPathCommands(x, y)
      ensures ctx.CurrentStyle() == old(ctx.CurrentStyle())
    {
      ctx.Emit(BeginPath);
      ctx.Emit(MoveTo(At(x, y)));
    }

    /** `continuePath(x, y)`. */
    method ContinuePath(x: real, y: real)
      modifies ctx
      ensures ctx.log == old(ctx.log) + ContinuePathCommands(x, y)
      ensures ctx.CurrentStyle() == old(ctx.CurrentStyle())
    {
      ctx.Emit(LineTo(At(x, y)));
      ctx.Emit(Stroke);
    }

    /** `drawLine(startX, startY, endX, endY)`. */
    method DrawLine(startX: real, startY: real, endX: real, endY: real)
      modifies ctx
      ensures ctx.log == old(ctx.log) + DrawLineCommands(startX, startY, endX, endY)
      ensures ctx.CurrentStyle() == old(ctx.CurrentStyle())
    {
      ctx.Emit(BeginPath);
      ctx.Emit(MoveTo(At(startX, startY)));
      ctx.Emit(LineTo(At(endX, endY)));
      ctx.Emit(Stroke);
    }

    /** `drawShape(params)`: colour for both fill and stroke, line width 2, no
        change to the dash pattern; `completed` is false when `arc` throws. */
    method DrawShape(p: Shapes.ShapeParams) returns (completed: bool)
      modifies ctx
      ensures completed == !ServiceAborts(p)
      ensures ctx.log == old(ctx.log) + ServiceShapeCommands(p)
      ensures ctx.CurrentStyle()
           == old(ctx.CurrentStyle()).(fillStyle := p.color, strokeStyle := p.color, lineWidth := 2.0)
    {
      ctx.Emit(BeginPath);
      ctx.fillStyle := p.color;
      ctx.strokeStyle := p.color;
      ctx.lineWidth := 2.0;

      completed := true;
      if p.shape == "circle" {
        if ArcThrows(p.radius) {
          completed := false;
          return;
        }
        ctx.Emit(Arc(p.x, p.y, p.radius, PiTimes(0.0), PiTimes(2.0)));
      } else if p.shape == "rectangle" {
        ctx.Emit(Rect(p.x, p.y, p.width, p.height));
      }

      ctx.Emit(Stroke);
      ctx.Emit(Fill);
    }

    /** `clearRect(x, y, width, height)`. */
    method ClearRect(x: real, y: real, w: real, h: real)
      modifies ctx
      ensures ctx.log == old(ctx.log) + [Command.ClearRect(x, y, w, h)]
      ensures ctx.CurrentStyle() == old(ctx.CurrentStyle())
    {
      ctx.Emit(Command.ClearRect(x, y, w, h));
    }

    /** `clearCanvas(darkMode)`: paint the whole canvas in the background colour. */
    method ClearCanvas(darkMode: bool)
      modifies ctx
      ensures ctx.log == old(ctx.log) + [FillRect(0.0, 0.0, width as real, height as real)]
      ensures ctx.CurrentStyle() == old(ctx.CurrentStyle()).(fillStyle := Background(darkMode))
      ensures ctx.fillStyle == (if darkMode then "#282c34" else "white")
    {
      ctx.fillStyle := Background(darkMode);
      ctx.Emit(FillRect(0.0, 0.0, width as real, height as real));
    }
  }
}
