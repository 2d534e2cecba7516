/** Option, used for the JavaScript values that may be `undefined`. */
module Wrappers {
  datatype Option<T> = None | Some(value: T)
}

/**
 The browser's 2D drawing context, as the rest of the model sees it: a record
 of style fields that plain assignments overwrite, plus an append-only log of
 the path and paint commands issued so far. Pixels are not modelled.
 */
module Canvas {

  /** An angle given as a multiple of pi (`Math.PI`), so that arcs and star
      vertices stay exact. */
  datatype Angle = PiTimes(m: real)

  /** A point handed to `moveTo`/`lineTo`. `Polar(cx, cy, r, a)` stands for
      (cx + cos(a) * r, cy + sin(a) * r); cos and sin are left uninterpreted,
      so only the centre, radius and angle of such a point are known. */
  datatype Point = At(x: real, y: real) | Polar(cx: real, cy: real, r: real, angle: Angle)

  /** One call on the context that draws or builds a path. */
  datatype Command =
    | BeginPath
    | MoveTo(to: Point)
    | LineTo(to: Point)
    | Arc(cx: real, cy: real, radius: real, startAngle: Angle, endAngle: Angle)
    | Rect(x: real, y: real, w: real, h: real)
    | Stroke
    | Fill
    | FillRect(x: real, y: real, w: real, h: real)
    | ClearRect(x: real, y: real, w: real, h: real)

  /** `arc` throws an IndexSizeError, adding nothing to the path, when its radius
      is negative; the code after the call in the same function does not run. */
  predicate ArcThrows(radius: real) {
    radius < 0.0
  }

  /** The style fields of the context that the application writes. */
  datatype Style = Style(
    strokeStyle: string,
    fillStyle: string,
    lineWidth: real,
    globalAlpha: real,
    lineCap: string,
    lineJoin: string,
    lineDash: seq<real>)

  const DarkBackground: string := "#282c34"
  const LightBackground: string := "white"

  /** The canvas background colour for the current colour mode. */
  function Background(dark: bool): string {
    if dark then DarkBackground else LightBackground
  }

  /** Initial values of a fresh HTML canvas 2D context. */
  const DefaultStyle: Style := Style("#000000", "#000000", 1.0, 1.0, "butt", "miter", [])

  class Context2D {
    var strokeStyle: string
    var fillStyle: string
    var lineWidth: real
    var globalAlpha: real
    var lineCap: string
    var lineJoin: string
    var lineDash: seq<real>
    /** Every path or paint command issued on this context, oldest first. */
    var log: seq<Command>

    function CurrentStyle(): Style
      reads this
    {
      Style(strokeStyle, fillStyle, lineWidth, globalAlpha, lineCap, lineJoin, lineDash)
    }

    constructor ()
      ensures CurrentStyle() == DefaultStyle && log == []
    {
      strokeStyle, fillStyle := "#000000", "#000000";
      lineWidth, globalAlpha := 1.0, 1.0;
      lineCap, lineJoin := "butt", "miter";
      lineDash := [];
      log := [];
    }

    /** Issues one path or paint command; the style is untouched. */
    method Emit(c: Command)
      modifies this
      ensures log == old(log) + [c]
      ensures CurrentStyle() == old(CurrentStyle())
    {
      log := log + [c];
    }

    /** `setLineDash(segments)`. */
    method SetLineDash(segments: seq<real>)
      modifies this
      ensures CurrentStyle() == old(CurrentStyle()).(lineDash := segments)
      ensures log == old(log)
    {
      lineDash := segments;
    }
  }
}
