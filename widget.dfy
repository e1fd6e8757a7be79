/** The widget: its gesture state machine over the press, move and release events, first as
    functions on a state value, then as the control class whose handlers update its fields. */
module Widget {
  import opened Drawing
  import opened Zones
  import opened Manipulation

  /** The pointer buttons a press can report. */
  datatype MouseButton = LeftButton | RightButton | MiddleButton | XButton1 | XButton2

  /** Everything the handlers read or write: the two gesture flags, the drag anchor, the
      resize snapshot, the selected direction, the geometry and the displayed cursor. */
  datatype WidgetState = WidgetState(
    dragging: bool,
    dragStart: Point,
    resizing: bool,
    resizeStart: Point,
    originalSize: Size,
    originalLocation: Point,
    resizeDirection: ResizeDirection,
    location: Point,
    size: Size,
    cursor: Cursor)

  /** A freshly constructed control: idle, at the origin, 100 by 100, every anchor zero. */
  const Initial: WidgetState :=
    WidgetState(false, Point(0, 0), false, Point(0, 0), Size(0, 0), Point(0, 0), None,
                Point(0, 0), Size(100, 100), Default)

  /** The geometry a state shows. */
  function Geometry(s: WidgetState): Rect { Rect(s.location, s.size) }

  /** A press. Only the left button does anything. It classifies the local point against the
      current size; an edge or corner starts a resize and snapshots the screen pointer, the size
      and the location; the interior starts a drag and keeps the local point. Neither branch
      clears the other flag, and a press never moves, resizes or re-cursors the control. */
  function MouseDown(s: WidgetState, button: MouseButton, local: Point, screen: Point): (r: WidgetState)
    ensures button != LeftButton ==> r == s
    ensures Geometry(r) == Geometry(s) && r.cursor == s.cursor
    ensures button == LeftButton ==> r.resizeDirection == GetResizeDirection(local, s.size)
    ensures button == LeftButton && GetResizeDirection(local, s.size) != None ==>
      && r.resizing && r.dragging == s.dragging && r.dragStart == s.dragStart
      && r.resizeStart == screen && r.originalSize == s.size && r.originalLocation == s.location
    ensures button == LeftButton && GetResizeDirection(local, s.size) == None ==>
      && r.dragging && r.dragStart == local && r.resizing == s.resizing
      && r.resizeStart == s.resizeStart && r.originalSize == s.originalSize
      && r.originalLocation == s.originalLocation
  {
    if button == LeftButton then
      var d := GetResizeDirection(local, s.size);
      if d != None then
        s.(resizeDirection := d, resizing := true, resizeStart := screen,
           originalSize := s.size, originalLocation := s.location)
      else
        s.(resizeDirection := d, dragging := true, dragStart := local)
    else
      s
  }

  /** One resize step: with a parent, the control takes the rectangle the press snapshot and
      the current screen pointer give; without one, nothing changes. */
  function ResizeStep(s: WidgetState, screen: Point, parent: ParentInfo): (r: WidgetState)
    ensures parent == NoParent ==> r == s
    ensures parent.Bounds? ==>
      Geometry(r) == ResizeTarget(s.resizeDirection, Rect(s.originalLocation, s.originalSize),
                                  s.resizeStart, screen, parent.width, parent.height)
    ensures r == s.(location := r.location, size := r.size)
  {
    match parent
    case NoParent => s
    case Bounds(w, h) =>
      var t := ResizeTarget(s.resizeDirection, Rect(s.originalLocation, s.originalSize),
                            s.resizeStart, screen, w, h);
      s.(location := t.location, size := t.size)
  }

  /** One drag step: with a parent, the control moves to where the parent-relative pointer and
      the press offset put it, size unchanged; without one, nothing changes. */
  function MoveStep(s: WidgetState, inParent: Point, parent: ParentInfo): (r: WidgetState)
    ensures parent == NoParent ==> r == s
    ensures parent.Bounds? ==>
      r.location == MoveTarget(inParent, s.dragStart, s.size, parent.width, parent.height)
    ensures r == s.(location := r.location)
  {
    match parent
    case NoParent => s
    case Bounds(w, h) => s.(location := MoveTarget(inParent, s.dragStart, s.size, w, h))
  }

  /** A pointer move. A resize in progress takes precedence over a drag; an idle move only
      updates the cursor from the zone under the pointer. A move never changes the gesture
      flags, the anchors or the selected direction. */
  function MouseMove(s: WidgetState, local: Point, screen: Point, inParent: Point, parent: ParentInfo): (r: WidgetState)
    ensures r.dragging == s.dragging && r.resizing == s.resizing
    ensures r.dragStart == s.dragStart && r.resizeStart == s.resizeStart
    ensures r.originalSize == s.originalSize && r.originalLocation == s.originalLocation
    ensures r.resizeDirection == s.resizeDirection
    ensures s.resizing ==> r == ResizeStep(s, screen, parent)
    ensures !s.resizing && s.dragging ==> r == MoveStep(s, inParent, parent)
    ensures !s.resizing && !s.dragging ==>
      Geometry(r) == Geometry(s) && r.cursor == GetCursorForDirection(GetResizeDirection(local, s.size))
  {
    if s.resizing then ResizeStep(s, screen, parent)
    else if s.dragging then MoveStep(s, inParent, parent)
    else s.(cursor := GetCursorForDirection(GetResizeDirection(local, s.size)))
  }

  /** A release, whatever the button: both gestures end; nothing else changes. */
  function MouseUp(s: WidgetState): (r: WidgetState)
    ensures !r.dragging && !r.resizing
    ensures r.(dragging := s.dragging, resizing := s.resizing) == s
  {
    s.(dragging := false, resizing := false)
  }

  /** The control itself. Its fields are the handlers' state; `Location` and `Size` are plain
      fields, written location first, then size. */
  class ResizableRectangle {
    var dragging: bool
    var dragStart: Point
    var resizing: bool
    var resizeStart: Point
    var originalSize: Size
    var originalLocation: Point
    var resizeDirection: ResizeDirection
    var location: Point
    var size: Size
    var cursor: Cursor

    /** The abstract value of the control. */
    function State(): WidgetState
      reads this
    {
      WidgetState(dragging, dragStart, resizing, resizeStart, originalSize, originalLocation,
                  resizeDirection, location, size, cursor)
    }

    constructor ()
      ensures State() == Initial
    {
      dragging, dragStart := false, Point(0, 0);
      resizing, resizeStart := false, Point(0, 0);
      originalSize, originalLocation := Size(0, 0), Point(0, 0);
      resizeDirection := None;
      location := Point(0, 0);
      size := Size(100, 100);
      cursor := Default;
    }

    /** The press handler. */
    method OnMouseDown(button: MouseButton, local: Point, screen: Point)
      modifies this
      ensures State() == MouseDown(old(State()), button, local, screen)
    {
      if button == LeftButton {
        resizeDirection := GetResizeDirection(local, size);
        if resizeDirection != None {
          resizing := true;
          resizeStart := screen;
          originalSize := size;
          originalLocation := location;
        } else {
          dragging := true;
          dragStart := local;
        }
      }
    }

    /** The move handler. `screen` is the global pointer position, `inParent` the same pointer
        in the parent's client coordinates. */
    method OnMouseMove(local: Point, screen: Point, inParent: Point, parent: ParentInfo)
      modifies this
      ensures State() == MouseMove(old(State()), local, screen, inParent, parent)
    {
      if resizing {
        ResizeControl(screen, parent);
      } else if dragging {
        MoveControl(inParent, parent);
      } else {
        cursor := GetCursorForDirection(GetResizeDirection(local, size));
      }
    }

    /** The release handler. */
    method OnMouseUp()
      modifies this
      ensures State() == MouseUp(old(State()))
    {
      dragging := false;
      resizing := false;
    }

    /** Drag the control so the press point stays under the pointer, clamped to the parent. */
    method MoveControl(inParent: Point, parent: ParentInfo)
      modifies this`location
      ensures State() == MoveStep(old(State()), inParent, parent)
    {
      if parent == NoParent {
        return;
      }
      var newLocation := inParent;
      newLocation := Point(newLocation.x - dragStart.x, newLocation.y - dragStart.y);
      newLocation := newLocation.(x := Max(0, Min(parent.width - size.width, newLocation.x)));
      newLocation := newLocation.(y := Max(0, Min(parent.height - size.height, newLocation.y)));
      location := newLocation;
    }

    /** Resize from the press snapshot and the current pointer, then clip to the parent. */
    method ResizeControl(screen: Point, parent: ParentInfo)
      modifies this`location, this`size
      ensures State() == ResizeStep(old(State()), screen, parent)
    {
      if parent == NoParent {
        return;
      }
      var delta := Point(screen.x - resizeStart.x, screen.y - resizeStart.y);
      var newWidth := originalSize.width;
      var newHeight := originalSize.height;
      var newX := originalLocation.x;
      var newY := originalLocation.y;

      if HasFlag(resizeDirection, Left) {
        newX := Max(0, originalLocation.x + delta.x);
        newWidth := Max(MinimumSize, originalSize.width - delta.x);
      } else if HasFlag(resizeDirection, Right) {
        newWidth := Max(MinimumSize, originalSize.width + delta.x);
      }

      if HasFlag(resizeDirection, Top) {
        newY := Max(0, originalLocation.y + delta.y);
        newHeight := Max(MinimumSize, originalSize.height - delta.y);
      } else if HasFlag(resizeDirection, Bottom) {
        newHeight := Max(MinimumSize, originalSize.height + delta.y);
      }

      newWidth := Min(newWidth, parent.width - newX);
      newHeight := Min(newHeight, parent.height - newY);

      location := Point(newX, newY);
      size := Size(newWidth, newHeight);
    }
  }
}
