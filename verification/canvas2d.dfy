/**
  The part of the canvas 2D rendering context (WHATWG HTML Living Standard, section 4.12.5.1)
  that the runner assets drive, as a state machine: the drawing-state attributes, the current
  path, and an append-only log of paint operations, each recording the state it was painted with.
  Rasterisation is not modelled; the log is what a rasteriser would consume.
*/
module Canvas2D {

  /** `Math.PI`: the IEEE-754 double nearest to pi, written out exactly. */
  const MathPI: real := 3.141592653589793115997963468544185161590576171875

  /** `Math.PI * 2`, which is exact in double arithmetic. */
  const FullTurn: real := MathPI * 2.0

  datatype ColorStop = ColorStop(offset: real, color: string)

  /** A fill or stroke style: a CSS colour string, or a linear gradient with its stops. */
  datatype Style =
    | Solid(color: string)
    | Linear(x0: real, y0: real, x1: real, y1: real, stops: seq<ColorStop>)

  datatype Shadow = Shadow(color: string, blur: real, offsetX: real, offsetY: real)

  /** The path commands the recipes issue. */
  datatype PathCmd =
    | MoveTo(x: real, y: real)
    | LineTo(x: real, y: real)
    | QuadraticCurveTo(cpx: real, cpy: real, x: real, y: real)
    | BezierCurveTo(cp1x: real, cp1y: real, cp2x: real, cp2y: real, x: real, y: real)
    | Arc(x: real, y: real, radius: real, startAngle: real, endAngle: real)
    | Ellipse(x: real, y: real, radiusX: real, radiusY: real, rotation: real, startAngle: real, endAngle: real)

  /** The drawing-state attributes a paint operation reads. */
  datatype DrawState = DrawState(fillStyle: Style, strokeStyle: Style, lineWidth: real, shadow: Shadow)

  datatype PaintOp =
    | FillPath(path: seq<PathCmd>)
    | StrokePath(path: seq<PathCmd>)
    | FillRect(x: real, y: real, w: real, h: real)

  /** One paint operation together with the drawing state in force when it ran. */
  datatype Paint = Paint(op: PaintOp, state: DrawState)

  const Black := Solid("#000000")

  /** Transparent black, the initial `shadowColor`. */
  const NoShadowColor := "rgba(0, 0, 0, 0)"

  /** The initial drawing state of a new context. */
  const InitialState := DrawState(Black, Black, 1.0, Shadow(NoShadowColor, 0.0, 0.0, 0.0))

  /** A linear gradient object: its axis is fixed, `addColorStop` appends stops. */
  class LinearGradient {
    const x0: real
    const y0: real
    const x1: real
    const y1: real
    var stops: seq<ColorStop>

    /** `createLinearGradient(x0, y0, x1, y1)`: a gradient without stops. */
    constructor (x0: real, y0: real, x1: real, y1: real)
      ensures this.x0 == x0 && this.y0 == y0 && this.x1 == x1 && this.y1 == y1 && stops == []
    {
      this.x0, this.y0, this.x1, this.y1 := x0, y0, x1, y1;
      stops := [];
    }

    /**
      `addColorStop(offset, color)`: an offset outside [0, 1] raises an IndexSizeError
      (reported as `ok == false`) and adds nothing.
    */
    method AddColorStop(offset: real, color: string) returns (ok: bool)
      modifies this`stops
      ensures ok <==> 0.0 <= offset <= 1.0
      ensures stops == if ok then old(stops) + [ColorStop(offset, color)] else old(stops)
    {
      ok := 0.0 <= offset <= 1.0;
      if ok {
        stops := stops + [ColorStop(offset, color)];
      }
    }

    /** The gradient as a fill style, with the stops it has now. */
    function AsStyle(): (s: Style)
      reads this
      ensures s.Linear? && s.stops == stops
    {
      Linear(x0, y0, x1, y1, stops)
    }
  }

  /** A 2D context: drawing-state attributes, the current path and the log of what was painted. */
  class Context2D {
    var fillStyle: Style
    var strokeStyle: Style
    var lineWidth: real
    var shadowColor: string
    var shadowBlur: real
    var shadowOffsetX: real
    var shadowOffsetY: real
    var path: seq<PathCmd>
    var log: seq<Paint>

    /** The drawing state a paint operation issued now would use. */
    function State(): DrawState
      reads this
    {
      DrawState(fillStyle, strokeStyle, lineWidth, Shadow(shadowColor, shadowBlur, shadowOffsetX, shadowOffsetY))
    }

    /** A context as `getContext('2d')` first returns it. */
    predicate IsInitial()
      reads this
    {
      State() == InitialState && path == [] && log == []
    }

    constructor ()
      ensures IsInitial()
    {
      fillStyle, strokeStyle, lineWidth := Black, Black, 1.0;
      shadowColor, shadowBlur, shadowOffsetX, shadowOffsetY := NoShadowColor, 0.0, 0.0, 0.0;
      path, log := [], [];
    }

    /** `beginPath()`: empties the current path; nothing else changes. */
    method BeginPath()
      modifies this`path
      ensures path == []
    {
      path := [];
    }

    method MoveTo(x: real, y: real)
      modifies this`path
      ensures path == old(path) + [PathCmd.MoveTo(x, y)]
    {
      path := path + [PathCmd.MoveTo(x, y)];
    }

    method LineTo(x: real, y: real)
      modifies this`path
      ensures path == old(path) + [PathCmd.LineTo(x, y)]
    {
      path := path + [PathCmd.LineTo(x, y)];
    }

    method QuadraticCurveTo(cpx: real, cpy: real, x: real, y: real)
      modifies this`path
      ensures path == old(path) + [PathCmd.QuadraticCurveTo(cpx, cpy, x, y)]
    {
      path := path + [PathCmd.QuadraticCurveTo(cpx, cpy, x, y)];
    }

    method BezierCurveTo(cp1x: real, cp1y: real, cp2x: real, cp2y: real, x: real, y: real)
      modifies this`path
      ensures path == old(path) + [PathCmd.BezierCurveTo(cp1x, cp1y, cp2x, cp2y, x, y)]
    {
      path := path + [PathCmd.BezierCurveTo(cp1x, cp1y, cp2x, cp2y, x, y)];
    }

    /** `arc(...)`; a negative radius raises an IndexSizeError, so it is excluded. */
    method Arc(x: real, y: real, radius: real, startAngle: real, endAngle: real)
      requires radius >= 0.0
      modifies this`path
      ensures path == old(path) + [PathCmd.Arc(x, y, radius, startAngle, endAngle)]
    {
      path := path + [PathCmd.Arc(x, y, radius, startAngle, endAngle)];
    }

    /** `ellipse(...)`; a negative radius raises an IndexSizeError, so it is excluded. */
    method Ellipse(x: real, y: real, radiusX: real, radiusY: real, rotation: real, startAngle: real, endAngle: real)
      requires radiusX >= 0.0 && radiusY >= 0.0
      modifies this`path
      ensures path == old(path) + [PathCmd.Ellipse(x, y, radiusX, radiusY, rotation, startAngle, endAngle)]
    {
      path := path + [PathCmd.Ellipse(x, y, radiusX, radiusY, rotation, startAngle, endAngle)];
    }

    /** `fill()`: paints the current path with the current state; the path is kept. */
    method Fill()
      modifies this`log
      ensures log == old(log) + [Paint(FillPath(path), State())]
    {
      log := log + [Paint(FillPath(path), State())];
    }

    /** `stroke()`: strokes the current path with the current state; the path is kept. */
    method Stroke()
      modifies this`log
      ensures log == old(log) + [Paint(StrokePath(path), State())]
    {
      log := log + [Paint(StrokePath(path), State())];
    }

    /** `fillRect(x, y, w, h)`: paints a rectangle without touching the current path. */
    method FillRect(x: real, y: real, w: real, h: real)
      modifies this`log
      ensures log == old(log) + [Paint(PaintOp.FillRect(x, y, w, h), State())]
    {
      log := log + [Paint(PaintOp.FillRect(x, y, w, h), State())];
    }
  }

  /** A canvas element: fixed dimensions and its one 2D context. */
  class Canvas {
    var width: nat
    var height: nat
    const ctx: Context2D

    /** `document.createElement('canvas')`: 300 by 150, with a fresh context. */
    constructor ()
      ensures width == 300 && height == 150
      ensures fresh(ctx) && ctx.IsInitial()
    {
      width, height := 300, 150;
      ctx := new Context2D();
    }
  }
}
