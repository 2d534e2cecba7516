/**
 Shape rendering of `drawShapeOnCanvas` (src/utils/drawShapes.js): the style
 it sets, the derived sizes of each kind of shape and the exact sequence of
 commands it issues on the context.
 */
module Shapes {
  import opened Canvas

  /** The descriptor a shape is drawn from. */
  datatype ShapeParams = ShapeParams(
    shape: string,
    x: real,
    y: real,
    width: real,
    height: real,
    radius: real,
    color: string,
    preview: bool)

  /** Number of points of a star. */
  const Spikes: nat := 5
  /** Dash pattern of a shape preview. */
  const PreviewDash: seq<real> := [5.0, 5.0]
  /** Line width of every shape outline. */
  const ShapeLineWidth: real := 2.0

  /** `Math.abs`. */
  function Abs(v: real): (r: real)
    ensures r >= 0.0 && (r == v || r == -v)
  {
    if v < 0.0 then -v else v
  }

  /** `Math.min` of two numbers. */
  function Min(a: real, b: real): (r: real)
    ensures r <= a && r <= b && (r == a || r == b)
  {
    if a <= b then a else b
  }

  /** Side of a square drawn in a width-by-height box: the smaller extent. */
  function SquareSide(width: real, height: real): (s: real)
    ensures 0.0 <= s && s <= Abs(width) && s <= Abs(height)
    ensures s == Abs(width) || s == Abs(height)
  {
    Min(Abs(width), Abs(height))
  }

  /** Outer radius of a star: half the square side, so the star fits the box. */
  function OuterRadius(width: real, height: real): (r: real)
    ensures 0.0 <= r && r + r == SquareSide(width, height)
  {
    SquareSide(width, height) / 2.0
  }

  /** Inner radius of a star: half the outer one. */
  function InnerRadius(outer: real): (r: real)
    ensures r + r == outer
  {
    outer / 2.0
  }

  /** Angle of the j-th star vertex: 3*pi/2 advanced by j steps of pi/Spikes. */
  function RotAt(j: nat): Angle {
    PiTimes(3.0 / 2.0 + (j as real) / (Spikes as real))
  }

  /** The `lineTo` calls of the first n iterations of the star loop: an outer
      vertex and then an inner vertex per spike. */
  function StarLines(cx: real, cy: real, outer: real, inner: real, n: nat): (cs: seq<Command>)
    ensures |cs| == 2 * n
  {
    if n == 0 then []
    else
      StarLines(cx, cy, outer, inner, n - 1)
      + [LineTo(Polar(cx, cy, outer, RotAt(2 * (n - 1)))),
         LineTo(Polar(cx, cy, inner, RotAt(2 * (n - 1) + 1)))]
  }

  /** The path a shape builds after the first `beginPath`; empty for a kind
      the switch does not know. */
  function ShapeGeometry(p: ShapeParams): seq<Command> {
    if p.shape == "circle" then
      [BeginPath, Arc(p.x + p.radius, p.y + p.radius, p.radius, PiTimes(0.0), PiTimes(2.0))]
    else if p.shape == "square" then
      var size := SquareSide(p.width, p.height);
      [BeginPath, Rect(p.x, p.y, size, size)]
    else if p.shape == "rectangle" then
      [BeginPath, Rect(p.x, p.y, p.width, p.height)]
    else if p.shape == "star" then
      StarPath(p.x, p.y, p.width, p.height)
    else
      []
  }

  /** A circle with a negative radius: its `arc` call throws, so the drawing
      stops after the second `beginPath`. */
  predicate Aborts(p: ShapeParams) {
    p.shape == "circle" && ArcThrows(p.radius)
  }

  /** Everything `drawShapeOnCanvas` issues, in order, up to an exception. */
  function ShapeCommands(p: ShapeParams): seq<Command> {
    if Aborts(p) then [BeginPath, BeginPath]
    else [BeginPath] + ShapeGeometry(p) + [Stroke] + (if p.preview then [] else [Fill])
  }

  /** The context style after drawing a shape. */
  function ShapeStyle(s: Style, p: ShapeParams): (r: Style)
    ensures r.fillStyle == p.color && r.strokeStyle == p.color
    ensures r.lineWidth == ShapeLineWidth
    ensures r.lineDash == (if p.preview then PreviewDash else [])
    ensures r.globalAlpha == s.globalAlpha && r.lineCap == s.lineCap && r.lineJoin == s.lineJoin
  {
    s.(fillStyle := p.color, strokeStyle := p.color, lineWidth := ShapeLineWidth,
       lineDash := if p.preview then PreviewDash else [])
  }

  /** `drawShapeOnCanvas(context, params)`; `completed` is false when it throws. */
  method DrawShapeOnCanvas(ctx: Context2D, p: ShapeParams) returns (completed: bool)
    modifies ctx
    ensures completed == !Aborts(p)
    ensures ctx.log == old(ctx.log) + ShapeCommands(p)
    ensures ctx.CurrentStyle() == ShapeStyle(old(ctx.CurrentStyle()), p)
  {
    ctx.Emit(BeginPath);
    ctx.fillStyle := p.color;
    ctx.strokeStyle := p.color;
    ctx.lineWidth := ShapeLineWidth;
    if p.preview {
      ctx.SetLineDash(PreviewDash);
    } else {
      ctx.SetLineDash([]);
    }
    completed := TraceGeometry(ctx, p);
    if !completed {
      return;
    }
    ctx.Emit(Stroke);
    if !p.preview {
      ctx.Emit(Fill);
    }
  }

  /** The `switch (shape)` of `drawShapeOnCanvas`: builds the shape's path,
      unless `arc` throws (`completed` false). */
  method TraceGeometry(ctx: Context2D, p: ShapeParams) returns (completed: bool)
    modifies ctx
    ensures completed == !Aborts(p)
    ensures ctx.log == old(ctx.log) + (if completed then ShapeGeometry(p) else [BeginPath])
    ensures ctx.CurrentStyle() == old(ctx.CurrentStyle())
  {
    completed := true;
    if p.shape == "circle" {
      ctx.Emit(BeginPath);
      if ArcThrows(p.radius) {
        completed := false;
        return;
      }
      ctx.Emit(Arc(p.x + p.radius, p.y + p.radius, p.radius, PiTimes(0.0), PiTimes(2.0)));
    } else if p.shape == "square" {
      var size := Min(Abs(p.width), Abs(p.height));
      ctx.Emit(BeginPath);
      ctx.Emit(Rect(p.x, p.y, size, size));
    } else if p.shape == "rectangle" {
      ctx.Emit(BeginPath);
      ctx.Emit(Rect(p.x, p.y, p.width, p.height));
    } else if p.shape == "star" {
      TraceStar(ctx, p.x, p.y, p.width, p.height);
    }
  }

  /** The path of a star drawn in the box at (x, y) of the given extent. */
  function StarPath(x: real, y: real, width: real, height: real): seq<Command> {
    var outer := OuterRadius(width, height);
    var inner := InnerRadius(outer);
    var cx, cy := x + outer, y + outer;
    [BeginPath, MoveTo(At(cx, cy - outer))]
    + StarLines(cx, cy, outer, inner, Spikes)
    + [LineTo(At(cx, cy - outer))]
  }

  /** The `case 'star'` branch, with its loop over the spikes. */
  method TraceStar(ctx: Context2D, x: real, y: real, width: real, height: real)
    modifies ctx
    ensures ctx.log == old(ctx.log) + StarPath(x, y, width, height)
    ensures ctx.CurrentStyle() == old(ctx.CurrentStyle())
  {
    var spikes := Spikes;
    var outerRadius := Min(Abs(width), Abs(height)) / 2.0;
    var innerRadius := outerRadius / 2.0;
    var cx := x + outerRadius;
    var cy := y + outerRadius;
    var rot := 3.0 / 2.0;
    var step := 1.0 / (spikes as real);

    ctx.Emit(BeginPath);
    ctx.Emit(MoveTo(At(cx, cy - outerRadius)));
    ghost var loopStart := ctx.log;
    var i := 0;
    while i < spikes
      invariant 0 <= i <= spikes
      invariant rot == 3.0 / 2.0 + ((2 * i) as real) / (Spikes as real)
      invariant ctx.log == loopStart + StarLines(cx, cy, outerRadius, innerRadius, i)
      invariant ctx.CurrentStyle() == old(ctx.CurrentStyle())
    {
      ctx.Emit(LineTo(Polar(cx, cy, outerRadius, PiTimes(rot))));
      rot := rot + step;
      ctx.Emit(LineTo(Polar(cx, cy, innerRadius, PiTimes(rot))));
      rot := rot + step;
      i := i + 1;
    }
    ctx.Emit(LineTo(At(cx, cy - outerRadius)));
  }

  /** The j-th star `lineTo` goes to an outer vertex for even j and an inner
      one for odd j, at angle 3*pi/2 + j*pi/5. */
  lemma {:induction false} StarLinesAt(cx: real, cy: real, outer: real, inner: real, n: nat, j: nat)
    requires j < 2 * n
    ensures StarLines(cx, cy, outer, inner, n)[j]
         == LineTo(Polar(cx, cy, if j % 2 == 0 then outer else inner, RotAt(j)))
  {
    if j < 2 * (n - 1) {
      StarLinesAt(cx, cy, outer, inner, n - 1, j);
    }
  }

  /** The star loop issues nothing but `lineTo`. */
  lemma {:induction false} StarLinesOnlyLineTo(cx: real, cy: real, outer: real, inner: real, n: nat)
    ensures forall c :: c in StarLines(cx, cy, outer, inner, n) ==> c.LineTo?
  {
    if n > 0 {
      StarLinesOnlyLineTo(cx, cy, outer, inner, n - 1);
    }
  }

  /** Consecutive star vertices are one step of pi/5 apart. */
  lemma StarAnglesAdvance(j: nat)
    ensures RotAt(j + 1).m == RotAt(j).m + 1.0 / 5.0
    ensures RotAt(0).m == 3.0 / 2.0
  {
  }

  /** A preview is stroked only; a committed shape is stroked and then filled. */
  lemma PreviewNeverFills(p: ShapeParams)
    ensures Fill in ShapeCommands(p) <==> !p.preview && !Aborts(p)
    ensures var cs := ShapeCommands(p);
      if Aborts(p) then Stroke !in cs
      else if p.preview then cs[|cs| - 1] == Stroke
      else |cs| >= 2 && cs[|cs| - 2] == Stroke && cs[|cs| - 1] == Fill
  {
    var outer := OuterRadius(p.width, p.height);
    StarLinesOnlyLineTo(p.x + outer, p.y + outer, outer, InnerRadius(outer), Spikes);
  }

  /** A circle is one full arc centred at (x + radius, y + radius). */
  lemma CircleGeometry(p: ShapeParams)
    requires p.shape == "circle"
    ensures var g := ShapeGeometry(p);
      |g| == 2 && g[0] == BeginPath && g[1].Arc?
      && g[1].cx == p.x + p.radius && g[1].cy == p.y + p.radius && g[1].radius == p.radius
      && g[1].endAngle.m - g[1].startAngle.m == 2.0
  {
  }

  /** A square is a rectangle at (x, y) whose two sides both equal the smaller
      of |width| and |height|. */
  lemma SquareGeometry(p: ShapeParams)
    requires p.shape == "square"
    ensures var g := ShapeGeometry(p);
      |g| == 2 && g[1].Rect? && g[1].x == p.x && g[1].y == p.y && g[1].w == g[1].h
      && 0.0 <= g[1].w <= Abs(p.width) && g[1].w <= Abs(p.height)
      && (g[1].w == Abs(p.width) || g[1].w == Abs(p.height))
  {
  }

  /** A rectangle is rect(x, y, width, height), signs kept. */
  lemma RectangleGeometry(p: ShapeParams)
    requires p.shape == "rectangle"
    ensures ShapeGeometry(p) == [BeginPath, Rect(p.x, p.y, p.width, p.height)]
  {
  }

  /** A star: outer radius half the smaller extent, inner radius half that,
      centre (x + outer, y + outer); the path starts and ends at the top point
      (cx, cy - outer) and visits 10 vertices in between, alternating outer and
      inner radius at angles one step of pi/5 apart. */
  lemma {:induction false} StarGeometry(p: ShapeParams)
    requires p.shape == "star"
    ensures var g := ShapeGeometry(p);
      var outer := OuterRadius(p.width, p.height);
      var inner := InnerRadius(outer);
      var cx, cy := p.x + outer, p.y + outer;
      && outer + outer == SquareSide(p.width, p.height) && inner + inner == outer
      && |g| == 2 * Spikes + 3
      && g[0] == BeginPath
      && g[1] == MoveTo(At(cx, cy - outer))
      && g[|g| - 1] == LineTo(At(cx, cy - outer))
      && forall j :: 0 <= j < 2 * Spikes ==>
           g[j + 2] == LineTo(Polar(cx, cy, if j % 2 == 0 then outer else inner, RotAt(j)))
  {
    var outer := OuterRadius(p.width, p.height);
    var inner := InnerRadius(outer);
    var cx, cy := p.x + outer, p.y + outer;
    var lines := StarLines(cx, cy, outer, inner, Spikes);
    var g := ShapeGeometry(p);
    assert g == [BeginPath, MoveTo(At(cx, cy - outer))] + lines + [LineTo(At(cx, cy - outer))];
    forall j | 0 <= j < 2 * Spikes
      ensures g[j + 2] == LineTo(Polar(cx, cy, if j % 2 == 0 then outer else inner, RotAt(j)))
    {
      StarLinesAt(cx, cy, outer, inner, Spikes, j);
    }
  }

  /** A 100-by-100 star starts at the top middle of its box and all five of its
      outer vertices lie at radius 50 about the box centre (x + 50, y + 50). */
  lemma StarInSquareBox(p: ShapeParams)
    requires p.shape == "star" && p.width == 100.0 && p.height == 100.0
    ensures var g := ShapeGeometry(p);
      && g[1] == MoveTo(At(p.x + 50.0, p.y))
      && forall k :: 0 <= k < Spikes ==> g[2 + 2 * k] == LineTo(Polar(p.x + 50.0, p.y + 50.0, 50.0, RotAt(2 * k)))
  {
    StarGeometry(p);
    var g := ShapeGeometry(p);
    forall k | 0 <= k < Spikes
      ensures g[2 + 2 * k] == LineTo(Polar(p.x + 50.0, p.y + 50.0, 50.0, RotAt(2 * k)))
    {
      var j := 2 * k;
      assert j % 2 == 0 && 0 <= j < 2 * Spikes;
    }
  }

  /** A kind the switch does not know adds no geometry, yet the (empty) path
      is still stroked, and filled unless previewing. */
  lemma UnknownShapeStillPaints(p: ShapeParams)
    requires p.shape !in {"circle", "square", "rectangle", "star"}
    ensures ShapeCommands(p) == [BeginPath, Stroke] + (if p.preview then [] else [Fill])
  {
  }

  /** A circle with a negative radius is neither stroked nor filled, preview or not. */
  lemma NegativeRadiusAborts(p: ShapeParams)
    requires p.shape == "circle" && p.radius < 0.0
    ensures ShapeCommands(p) == [BeginPath, BeginPath]
    ensures Stroke !in ShapeCommands(p) && Fill !in ShapeCommands(p)
  {
  }
}
