/**
 * An automaton state as the canvas places it: a circle with a centre and a
 * fixed radius, a name, an end-state flag and a drag handle on top of the
 * circle. Moving the drag handle moves the centre.
 */
module Automaton {
  import opened Wrappers
  import opened Geometry

  /** How much smaller the inner ring of an end state is than its circle. */
  const EndRingScale: real := 0.9

  /** The drag handle of a circle: the top of the circle (y grows downwards). */
  function DragPointFor(center: Point, radius: real): Point {
    Point(center.x, center.y - radius)
  }

  /** The centre of a circle whose drag handle is at `dragPoint`. */
  function CenterFor(dragPoint: Point, radius: real): Point {
    Point(dragPoint.x, dragPoint.y + radius)
  }

  /** Placing the handle and reading it back are inverse, in both orders. */
  lemma DragPointRoundTrip(p: Point, center: Point, radius: real)
    ensures DragPointFor(CenterFor(p, radius), radius) == p
    ensures CenterFor(DragPointFor(center, radius), radius) == center
  {
  }

  class AutomatonState {
    var name: string
    var isEndState: bool
    var center: Point
    const radius: real
    var currentDragPoint: Point
    const id: string

    constructor (id: string, center: Point, radius: real)
      ensures this.id == id && this.center == center && this.radius == radius
      ensures name == "" && !isEndState
      ensures currentDragPoint == Point(center.x, center.y - radius)
      ensures currentDragPoint == DragPoint()
    {
      this.id := id;
      this.center := center;
      this.radius := radius;
      this.currentDragPoint := Point(center.x, center.y - radius);
      this.name := "";
      this.isEndState := false;
    }

    /** The getter of `dragPoint`: the handle sits `radius` above the centre. */
    function DragPoint(): (p: Point)
      reads this
      ensures p.x == center.x && center.y - p.y == radius
      ensures CenterFor(p, radius) == center
    {
      DragPointFor(center, radius)
    }

    /**
     * The setter of `dragPoint`: moves the centre so that the handle is at
     * `p`, one coordinate at a time; nothing but the centre changes.
     */
    method SetDragPoint(p: Point)
      modifies this
      ensures center == CenterFor(p, radius)
      ensures DragPoint() == p
      ensures p == old(DragPoint()) ==> center == old(center)
      ensures name == old(name) && isEndState == old(isEndState)
      ensures currentDragPoint == old(currentDragPoint)
    {
      center := Point(p.x, center.y);
      center := Point(center.x, p.y + radius);
    }

    /**
     * The inner ring drawn for an end state: `.circle` sampled around the
     * centre at `EndRingScale` of the radius; absent for other states.
     */
    function EndStroke(circle: (Point, real) -> seq<Point>): (s: Option<Stroke>)
      reads this
      ensures s.None? <==> !isEndState
      ensures s.Some? ==> s.value.controlPoints == circle(center, radius * EndRingScale)
    {
      if !isEndState then None else Some(Stroke(circle(center, radius * EndRingScale)))
    }

    /** Where the state's label goes: at its centre. */
    function ScribblePosition(): (p: Point)
      reads this
      ensures p == center
    {
      center
    }
  }
}
