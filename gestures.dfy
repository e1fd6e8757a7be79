/** Whole gestures: sequences of pointer events applied to the widget state, and what holds
    of the state at the end of any such sequence. */
module Gestures {
  import opened Drawing
  import opened Zones
  import opened Manipulation
  import opened Widget

  /** One pointer event as the host delivers it. A move carries the pointer in local, screen
      and parent-client coordinates, and the parent (if any) at that moment. */
  datatype Event =
    | Press(button: MouseButton, local: Point, screen: Point)
    | PointerMove(local: Point, screen: Point, inParent: Point, parent: ParentInfo)
    | Release

  /** Dispatches one event to its handler. */
  function Step(s: WidgetState, e: Event): WidgetState
  {
    match e
    case Press(b, l, sc) => MouseDown(s, b, l, sc)
    case PointerMove(l, sc, p, parent) => MouseMove(s, l, sc, p, parent)
    case Release => MouseUp(s)
  }

  /** The state after the events, in order. */
  function Run(s: WidgetState, events: seq<Event>): WidgetState
    decreases |events|
  {
    if events == [] then s else Run(Step(s, events[0]), events[1..])
  }

  /** Every event is a pointer move (no press or release in between). */
  predicate AllMoves(events: seq<Event>)
  {
    forall i :: 0 <= i < |events| ==> events[i].PointerMove?
  }

  /** During a resize, the control's geometry depends only on the press snapshot and the last
      pointer position: every earlier move is overwritten, so dropped or repeated move events
      change nothing. The gesture state itself is untouched. */
  lemma {:induction false} ResizeFollowsLastPointer(s: WidgetState, events: seq<Event>)
    requires s.resizing && AllMoves(events) && |events| > 0
    ensures Run(s, events).(location := s.location, size := s.size) == s
    ensures var last := events[|events| - 1];
      last.parent.Bounds? ==> Run(s, events) == ResizeStep(s, last.screen, last.parent)
    decreases |events|
  {
    var s1 := Step(s, events[0]);
    assert s1 == ResizeStep(s, events[0].screen, events[0].parent);
    if |events| > 1 {
      var rest := events[1..];
      assert AllMoves(rest) by {
        forall i | 0 <= i < |rest| ensures rest[i].PointerMove? {
          assert rest[i] == events[i + 1];
        }
      }
      ResizeFollowsLastPointer(s1, rest);
      assert rest[|rest| - 1] == events[|events| - 1];
    }
  }

  /** During a drag (and no resize), the control's location depends only on the press offset
      and the last parent-relative pointer, and its size never changes. */
  lemma {:induction false} DragFollowsLastPointer(s: WidgetState, events: seq<Event>)
    requires s.dragging && !s.resizing && AllMoves(events) && |events| > 0
    ensures Run(s, events).size == s.size
    ensures Run(s, events).(location := s.location) == s
    ensures var last := events[|events| - 1];
      last.parent.Bounds? ==> Run(s, events) == MoveStep(s, last.inParent, last.parent)
    decreases |events|
  {
    var s1 := Step(s, events[0]);
    assert s1 == MoveStep(s, events[0].inParent, events[0].parent);
    if |events| > 1 {
      var rest := events[1..];
      assert AllMoves(rest) by {
        forall i | 0 <= i < |rest| ensures rest[i].PointerMove? {
          assert rest[i] == events[i + 1];
        }
      }
      DragFollowsLastPointer(s1, rest);
      assert rest[|rest| - 1] == events[|events| - 1];
    }
  }

  /** The control and its resize snapshot start at non-negative coordinates. */
  predicate NonNegativeLocations(s: WidgetState)
  {
    s.location.x >= 0 && s.location.y >= 0 &&
    s.originalLocation.x >= 0 && s.originalLocation.y >= 0
  }

  /** Every event keeps the location and the snapshot location non-negative: a drag clamps at
      0, a resize rule either keeps the snapshot's coordinate or clamps at 0, and a press
      copies the location into the snapshot. */
  lemma StepKeepsNonNegative(s: WidgetState, e: Event)
    requires NonNegativeLocations(s)
    ensures NonNegativeLocations(Step(s, e))
  {
  }

  /** Any sequence of events keeps the locations non-negative. */
  lemma {:induction false} RunKeepsNonNegative(s: WidgetState, events: seq<Event>)
    requires NonNegativeLocations(s)
    ensures NonNegativeLocations(Run(s, events))
    decreases |events|
  {
    if events != [] {
      StepKeepsNonNegative(s, events[0]);
      RunKeepsNonNegative(Step(s, events[0]), events[1..]);
    }
  }

  /** From construction, whatever the events (including parent changes between moves), the
      control's location is never negative. Its size, by contrast, can be. */
  lemma ReachableLocationNonNegative(events: seq<Event>)
    ensures Run(Initial, events).location.x >= 0 && Run(Initial, events).location.y >= 0
  {
    RunKeepsNonNegative(Initial, events);
  }

  /** Repeating a move with the same pointer gives the same state, in every mode. */
  lemma MoveIdempotent(s: WidgetState, local: Point, screen: Point, inParent: Point, parent: ParentInfo)
    ensures var once := MouseMove(s, local, screen, inParent, parent);
      MouseMove(once, local, screen, inParent, parent) == once
  {
  }

  /** A press followed at once by a release leaves the geometry as it was and the control idle. */
  lemma PressReleaseKeepsGeometry(s: WidgetState, button: MouseButton, local: Point, screen: Point)
    ensures var r := Run(s, [Press(button, local, screen), Release]);
      Geometry(r) == Geometry(s) && !r.dragging && !r.resizing
  {
    var pressed := MouseDown(s, button, local, screen);
    assert Run(s, [Press(button, local, screen), Release]) == Run(pressed, [Release]);
    assert Run(pressed, [Release]) == Run(MouseUp(pressed), []);
  }

  /** A control at (10, 10), 100 by 100, in a 400 by 300 parent, pressed at local (5, 5): the
      press selects TopLeft, which the decoding resizes by the right-edge and top-edge rules, so
      dragging by (20, 10) widens the control to 120 and moves only its top edge. */
  lemma TopLeftCornerDrag()
    ensures var s := Initial.(location := Point(10, 10));
      var pressed := MouseDown(s, LeftButton, Point(5, 5), Point(115, 115));
      && pressed.resizeDirection == TopLeft
      && Geometry(MouseMove(pressed, Point(25, 15), Point(135, 125), Point(35, 25), Bounds(400, 300)))
         == Rect(Point(10, 20), Size(120, 90))
  {
  }

  /** A 50 by 50 control at the origin in a 200 by 200 parent, pressed at local (25, 5): the
      top band, away from both corners. Dragging up by 10 keeps y at 0 (the clamp) and grows
      the height to 60; x and the width stay. */
  lemma TopEdgeDragAtTheClamp()
    ensures var s := Initial.(size := Size(50, 50));
      var pressed := MouseDown(s, LeftButton, Point(25, 5), Point(25, 5));
      && pressed.resizeDirection == Top
      && Geometry(MouseMove(pressed, Point(25, -5), Point(25, -5), Point(25, -5), Bounds(200, 200)))
         == Rect(Point(0, 0), Size(50, 60))
  {
  }

  /** Without a parent, neither a drag nor a resize moves the control. */
  lemma NoParentNoChange(s: WidgetState, local: Point, screen: Point, inParent: Point)
    ensures Geometry(MouseMove(s, local, screen, inParent, NoParent)) == Geometry(s)
  {
  }
}
