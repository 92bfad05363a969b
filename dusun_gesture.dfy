/**
 * The eager variant's drag and pinch controller. One controller is bound to
 * one model at setup; it keeps its own drag flag, previous pointer position,
 * pinch baseline and scale factor, and writes the bound model's rotation and
 * scale.
 */
module DusunGesture {
  import opened Common

  const RotateSensitivity: real := 0.01
  const ZoomSensitivity: real := 0.005
  const MinScale: real := 0.5
  const MaxScale: real := 2.0

  /** A Euclidean distance between two touch points, computed by the caller. */
  type Distance = d: real | 0.0 <= d

  /**
   * A window event as the handlers read it: a mouse event at a client position,
   * or a touch event with its touch list and the distance between its first two
   * touches (meaningful only when there are two).
   */
  datatype Input = Mouse(at: Point) | Touches(points: seq<Point>, spread: Distance)

  /** The bound model's scene transform, as far as the controller writes it. */
  datatype Transform = Transform(rotX: real, rotY: real, scale: Vec3)

  datatype Zoom = Zoom(scaleFactor: real, isDragging: bool, previous: Point,
                       initialDistance: Option<Distance>, model: Transform)

  predicate InRange(k: real) { MinScale <= k <= MaxScale }

  function Min(a: real, b: real): real { if a <= b then a else b }
  function Max(a: real, b: real): real { if a >= b then a else b }

  /** `Math.min(Math.max(v, 0.5), 2)`. */
  function Clamp(v: real): (r: real)
    ensures InRange(r)
    ensures InRange(v) ==> r == v
    ensures v < MinScale ==> r == MinScale
    ensures v > MaxScale ==> r == MaxScale
  {
    Min(Max(v, MinScale), MaxScale)
  }

  /** The controller right after setup; the model keeps the scale it was loaded with. */
  function Initial(model: Transform): (z: Zoom)
    ensures z.scaleFactor == 1.0 && InRange(z.scaleFactor)
    ensures !z.isDragging && z.initialDistance.None? && z.model == model
  {
    Zoom(1.0, false, Point(0.0, 0.0), None, model)
  }

  /** A move continues a drag: dragging, and a mouse move or a one-finger touch move. */
  predicate Drags(z: Zoom, e: Input)
  {
    z.isDragging && (e.Mouse? || |e.points| == 1)
  }

  /** A move continues a pinch: two touches and a baseline that is set and non-zero. */
  predicate Pinches(z: Zoom, e: Input)
  {
    !Drags(z, e) && e.Touches? && |e.points| == 2
    && z.initialDistance.Some? && z.initialDistance.value != 0.0
  }

  function Position(e: Input): Point
    requires e.Mouse? || |e.points| > 0
  {
    if e.Touches? then e.points[0] else e.at
  }

  /**
   * `handleStart`: one touch or a mouse press starts a drag from its position;
   * two touches start a pinch, end any drag and take their distance as the
   * baseline; any other touch count changes nothing.
   */
  function Start(z: Zoom, e: Input): (r: Zoom)
    ensures r.scaleFactor == z.scaleFactor && r.model == z.model
    ensures (e.Mouse? || |e.points| == 1) ==>
              r.isDragging && r.previous == Position(e) && r.initialDistance == z.initialDistance
    ensures e.Touches? && |e.points| == 2 ==>
              !r.isDragging && r.initialDistance == Some(e.spread) && r.previous == z.previous
    ensures e.Touches? && (|e.points| == 0 || |e.points| > 2) ==> r == z
  {
    if e.Touches? && |e.points| == 1 then z.(isDragging := true, previous := e.points[0])
    else if e.Touches? && |e.points| == 2 then z.(isDragging := false, initialDistance := Some(e.spread))
    else if e.Mouse? then z.(isDragging := true, previous := e.at)
    else z
  }

  /**
   * `handleMove`: a drag turns the model by 0.01 rad per pixel (horizontal
   * motion about y, vertical about x) and advances the previous position; a
   * pinch moves the scale factor by 0.005 per pixel of distance change,
   * clamped to [0.5, 2], scales the model uniformly to it and takes the new
   * distance as the baseline; anything else changes nothing.
   */
  function Move(z: Zoom, e: Input): (r: Zoom)
    ensures InRange(z.scaleFactor) ==> InRange(r.scaleFactor)
    ensures r.isDragging == z.isDragging
    ensures Drags(z, e) ==>
              && r.model.rotY == z.model.rotY + (Position(e).x - z.previous.x) * RotateSensitivity
              && r.model.rotX == z.model.rotX + (Position(e).y - z.previous.y) * RotateSensitivity
              && r.previous == Position(e)
              && r.model.scale == z.model.scale && r.scaleFactor == z.scaleFactor
              && r.initialDistance == z.initialDistance
    ensures Pinches(z, e) ==>
              && r.scaleFactor == Clamp(z.scaleFactor + (e.spread - z.initialDistance.value) * ZoomSensitivity)
              && r.model.scale == Uniform(r.scaleFactor)
              && r.initialDistance == Some(e.spread)
              && r.model.rotX == z.model.rotX && r.model.rotY == z.model.rotY
              && r.previous == z.previous
    ensures !Drags(z, e) && !Pinches(z, e) ==> r == z
  {
    if Drags(z, e) then
      var cur := Position(e);
      var dx := cur.x - z.previous.x;
      var dy := cur.y - z.previous.y;
      z.(model := z.model.(rotY := z.model.rotY + dx * RotateSensitivity,
                           rotX := z.model.rotX + dy * RotateSensitivity),
         previous := cur)
    else if Pinches(z, e) then
      var zoomDelta := (e.spread - z.initialDistance.value) * ZoomSensitivity;
      var k := Clamp(z.scaleFactor + zoomDelta);
      z.(scaleFactor := k, model := z.model.(scale := Uniform(k)), initialDistance := Some(e.spread))
    else z
  }

  /** `handleEnd`: the drag stops and the pinch baseline is dropped; nothing else changes. */
  function End(z: Zoom): (r: Zoom)
    ensures !r.isDragging && r.initialDistance.None?
    ensures r.scaleFactor == z.scaleFactor && r.previous == z.previous && r.model == z.model
  {
    z.(isDragging := false, initialDistance := None)
  }

  /** After a gesture ends, a two-finger move changes nothing until a new pinch starts. */
  lemma NoStaleDeltaAfterEnd(z: Zoom, pts: seq<Point>, d: Distance)
    requires |pts| == 2
    ensures Move(End(z), Touches(pts, d)) == End(z)
  {
  }

  /**
   * A pinch that ends and restarts measures its first step from the new
   * baseline only: the scale moves by the change since the new pinch began.
   */
  lemma RestartedPinchUsesNewBaseline(z: Zoom, a: seq<Point>, d0: Distance, b: seq<Point>, d1: Distance)
    requires |a| == 2 && |b| == 2 && d0 != 0.0
    ensures Move(Start(End(z), Touches(a, d0)), Touches(b, d1)).scaleFactor
              == Clamp(z.scaleFactor + (d1 - d0) * ZoomSensitivity)
  {
  }

  /**
   * The factor starts at 1.0 whatever scale the model was loaded with, so the
   * first pinch step sets a model loaded at 0.15 to scale 1.0 even when the
   * fingers have not moved.
   */
  lemma FirstPinchJumps(pts: seq<Point>, d: Distance)
    requires |pts| == 2 && d != 0.0
    ensures var z := Initial(Transform(0.0, 0.0, Uniform(0.15)));
            Move(Start(z, Touches(pts, d)), Touches(pts, d)).model.scale == Uniform(1.0)
  {
  }

  datatype GestureEvent = Down(input: Input) | Moved(input: Input) | Up

  function Apply(z: Zoom, e: GestureEvent): Zoom
  {
    match e
    case Down(i) => Start(z, i)
    case Moved(i) => Move(z, i)
    case Up => End(z)
  }

  /** The controller after handling the events in order. */
  function Replay(z: Zoom, events: seq<GestureEvent>): (r: Zoom)
    decreases |events|
  {
    if events == [] then z else Replay(Apply(z, events[0]), events[1..])
  }

  /** Over any gesture sequence the scale factor stays in [0.5, 2]. */
  lemma {:induction false} ReplayKeepsScaleInRange(z: Zoom, events: seq<GestureEvent>)
    requires InRange(z.scaleFactor)
    ensures InRange(Replay(z, events).scaleFactor)
    decreases |events|
  {
    if events != [] {
      ReplayKeepsScaleInRange(Apply(z, events[0]), events[1..]);
    }
  }

  /** From setup, whatever the events, the scale factor is in [0.5, 2]. */
  lemma ScaleAlwaysInRange(model: Transform, events: seq<GestureEvent>)
    ensures InRange(Replay(Initial(model), events).scaleFactor)
  {
    ReplayKeepsScaleInRange(Initial(model), events);
  }

  /** The closure variables of one `enableZoomAndRotation` call and the model it is bound to. */
  class ZoomRotate {
    var scaleFactor: real
    var isDragging: bool
    var previousPosition: Point
    var initialDistance: Option<Distance>
    var model: Transform

    function View(): Zoom
      reads this
    {
      Zoom(scaleFactor, isDragging, previousPosition, initialDistance, model)
    }

    ghost predicate Valid()
      reads this
    {
      InRange(scaleFactor)
    }

    constructor (model: Transform)
      ensures Valid() && View() == Initial(model)
    {
      scaleFactor := 1.0;
      isDragging := false;
      previousPosition := Point(0.0, 0.0);
      initialDistance := None;
      this.model := model;
    }

    method HandleStart(e: Input)
      requires Valid()
      modifies this
      ensures Valid() && View() == Start(old(View()), e)
    {
      if e.Touches? && |e.points| == 1 {
        isDragging := true;
        previousPosition := e.points[0];
      } else if e.Touches? && |e.points| == 2 {
        isDragging := false;
        initialDistance := Some(e.spread);
      } else if e.Mouse? {
        isDragging := true;
        previousPosition := e.at;
      }
    }

    method HandleMove(e: Input)
      requires Valid()
      modifies this
      ensures Valid() && View() == Move(old(View()), e)
    {
      if isDragging && (e.Mouse? || |e.points| == 1) {
        var cur := if e.Touches? then e.points[0] else e.at;
        var dx := cur.x - previousPosition.x;
        var dy := cur.y - previousPosition.y;
        model := model.(rotY := model.rotY + dx * RotateSensitivity);
        model := model.(rotX := model.rotX + dy * RotateSensitivity);
        previousPosition := cur;
      } else if e.Touches? && |e.points| == 2 && initialDistance.Some? && initialDistance.value != 0.0 {
        var zoomDelta := (e.spread - initialDistance.value) * ZoomSensitivity;
        scaleFactor := Min(Max(scaleFactor + zoomDelta, MinScale), MaxScale);
        model := model.(scale := Uniform(scaleFactor));
        initialDistance := Some(e.spread);
      }
    }

    method HandleEnd()
      requires Valid()
      modifies this
      ensures Valid() && View() == End(old(View()))
    {
      isDragging := false;
      initialDistance := None;
    }
  }
}
