# ResizableRectangle in Dafny

A model of `ResizableRectangle`, a desktop control that the user drags to move and drags by
its edges and corners to resize. The model covers its whole behaviour apart from the UI
framework wiring:

- the hit-zone classifier that maps a point in the control to one of nine resize directions,
  with an 8-unit inclusive margin and a fixed priority order (`Zones`);
- the cursor shown for each direction (`Zones`);
- the move rule (parent-relative pointer minus the press offset, clamped against the parent's width and height) and
  the resize rule (per-axis edge rules with a 20-unit minimum, from the press-time snapshot,
  then clipped to the parent's right and bottom edges) (`Manipulation`);
- the press / move / release state machine over the `dragging` and `resizing` flags and
  their anchors, both as functions on a state value and as the control class whose handlers
  update its fields (`Widget`);
- whole gestures as event sequences, with lemmas about where they end (`Gestures`).

`ResizeDirection` is a plain enum, and the resize code decodes it with `HasFlag`, which tests
the bits of the ordinals (None=0 … BottomRight=8) rather than edges. The model keeps that
decoding as written (`Zones.Ordinal`, `Zones.HasFlag`), so the directions act as follows:

| direction | rules applied |
|---|---|
| Top | top edge |
| Bottom | bottom edge |
| Left | left edge and top edge |
| Right | right edge |
| TopLeft | right edge and top edge |
| TopRight | right edge and bottom edge |
| BottomLeft | left edge and top edge |
| BottomRight | none |

Some of the control's behaviour is not what one would expect of it; the model follows the code:

- The minimum size of 20 is applied before the parent clip, so the final width or height can
  be below 20 and even negative (`Manipulation.ClipCanBreakMinimum`). No invariant says
  `width >= 20`.
- A corner acts by the decoding above, not as both matching edges
  (`Gestures.TopLeftCornerDrag`).
- A press while a gesture is in progress is processed: it sets one flag and does not clear
  the other. While both are set, a move resizes.
- A release does not reset the cursor, and a drag does not change it.

Inputs from outside the control are parameters: the press's button and local point, the
global pointer position, the same pointer in the parent's client coordinates, and the
parent as `NoParent` or `Bounds(width, height)`, the parent's `Width` and `Height` as the
code reads them (its outer size).

## Model

| member | source | states |
|---|---|---|
| Zones.Ordinal | ResizableRectangle.cs:17-21 | the enum's values are the declaration ordinals 0..8, with 0 exactly for None; `HasFlag` tests the bits of these ordinals |
| Zones.GetResizeDirection | ResizableRectangle.cs:82-99 | None exactly when the point is strictly inside all four margins; otherwise the first direction in the order TopLeft, TopRight, BottomLeft, BottomRight, Top, Bottom, Left, Right whose inclusive edge tests hold, each stated as an if-and-only-if, including the case where opposite tests both hold |
| Zones.GetCursorForDirection | ResizableRectangle.cs:101-111 | corners TopLeft/BottomRight give SizeNWSE, TopRight/BottomLeft SizeNESW, Top/Bottom SizeNS, Left/Right SizeWE, None Hand, each an if-and-only-if; the control's default cursor is never produced |
| Zones.CursorAtPoint | ResizableRectangle.cs:72 | the idle cursor read off the point: Hand exactly in the interior, SizeNS on a top or bottom band off both side bands, SizeWE on a side band off both top and bottom bands, a diagonal exactly in a corner |
| Manipulation.ClampAxis | ResizableRectangle.cs:121-122 | the clamp is non-negative, is the identity on `[0, limit]`, 0 below it and `max(0, limit)` above it |
| Manipulation.MoveTarget | ResizableRectangle.cs:117-124 | the dragged location is non-negative on both axes; when the control fits the parent's width (height) its right (bottom) edge is inside; inside the allowed range it equals the parent-relative pointer minus the press offset, and outside it sticks to 0 or to the far limit |
| Manipulation.HorizontalRuleOf | ResizableRectangle.cs:137-145 | through the ordinal bit test, the left-edge rule applies exactly to Left and BottomLeft, the right-edge rule exactly to Right, TopLeft and TopRight, and no rule to None, Top, Bottom and BottomRight |
| Manipulation.VerticalRuleOf | ResizableRectangle.cs:147-155 | through the ordinal bit test, the top-edge rule applies exactly to Top, Left, TopLeft and BottomLeft, the bottom-edge rule exactly to Bottom and TopRight, and no rule to None, Right and BottomRight |
| Manipulation.AxisSpan | ResizableRectangle.cs:139-154 | the near-edge rule keeps the start at or above 0 and the extent at or above 20, follows the pointer otherwise and then keeps the far edge fixed; the far-edge rule keeps the start and makes the extent follow the pointer, not below 20; no rule keeps both |
| Manipulation.ClipToParent | ResizableRectangle.cs:157-159 | the clip keeps the location and cuts width and height to at most their pre-clip values and to the room left before the parent's right and bottom edges |
| Manipulation.ResizeTarget | ResizableRectangle.cs:131-162 | a resized coordinate a near-edge rule touches is non-negative, one no rule or a far-edge rule touches is the press-time one, and the right and bottom edges never pass the parent's; each final width (height) is at most the pre-clip `RuleRect` extent and either equals it or puts the right (bottom) edge exactly on the parent's |
| Manipulation.DirectionEffects | ResizableRectangle.cs:137-155 | the pre-clip rectangle `RuleRect` follows the per-direction table above: Top changes only y and height, Bottom only height, Right only width, BottomRight and None nothing, Left and BottomLeft left and top rules, TopLeft right and top rules, TopRight right and bottom rules |
| Manipulation.RuleRectMinimum | ResizableRectangle.cs:140-154 | in the pre-clip rectangle `RuleRect`, a width or height a rule touches is at least 20 |
| Manipulation.ClipCanBreakMinimum | ResizableRectangle.cs:139-159 | a left-edge drag of 500 in a 400-wide parent puts x at 500 and leaves the width at -100 |
| Widget.MouseDown | ResizableRectangle.cs:38-57 | a non-left press changes nothing; a left press records the classified direction, on an edge sets `resizing` and snapshots pointer, size and location, inside sets `dragging` and keeps the local point; the other flag and the geometry and cursor stay |
| Widget.ResizeStep | ResizableRectangle.cs:127-163 | without a parent nothing changes; with one the geometry becomes the resize target of the snapshot and current pointer, and only location and size change |
| Widget.MoveStep | ResizableRectangle.cs:113-125 | without a parent nothing changes; with one only the location changes, to the move target for the unchanged size |
| Widget.MouseMove | ResizableRectangle.cs:59-74 | a move never changes flags, anchors or direction; resizing takes precedence over dragging; an idle move keeps the geometry and sets the cursor of the zone under the pointer |
| Widget.MouseUp | ResizableRectangle.cs:76-80 | any release clears both flags and changes nothing else |
| Widget.ResizableRectangle.constructor | ResizableRectangle.cs:23-31 | a new control is idle at the origin, 100 by 100, with zero anchors and direction None |
| Widget.ResizableRectangle.OnMouseDown | ResizableRectangle.cs:38-57 | the press handler's field updates are exactly `MouseDown` on the control's state |
| Widget.ResizableRectangle.OnMouseMove | ResizableRectangle.cs:59-74 | the move handler's field updates are exactly `MouseMove` on the control's state |
| Widget.ResizableRectangle.OnMouseUp | ResizableRectangle.cs:76-80 | the release handler's field updates are exactly `MouseUp` on the control's state |
| Widget.ResizableRectangle.MoveControl | ResizableRectangle.cs:113-125 | the step-by-step offset and clamps write exactly the `MoveStep` location |
| Widget.ResizableRectangle.ResizeControl | ResizableRectangle.cs:127-163 | the in-place `HasFlag` chains and clip write exactly the `ResizeStep` location and size |
| Gestures.ResizeFollowsLastPointer | ResizableRectangle.cs:131-162 | over any run of moves during a resize, the gesture state is untouched and, when the last move has a parent, the geometry is the resize target of the snapshot and the last pointer alone |
| Gestures.DragFollowsLastPointer | ResizableRectangle.cs:117-124 | over any run of moves during a drag, only the location changes and, when the last move has a parent, it is the move target of the last pointer alone |
| Gestures.StepKeepsNonNegative | ResizableRectangle.cs:38-80 | each event keeps the location and the snapshot location non-negative |
| Gestures.RunKeepsNonNegative | ResizableRectangle.cs:38-80 | any event sequence keeps the location and the snapshot location non-negative |
| Gestures.ReachableLocationNonNegative | ResizableRectangle.cs:121-161 | from a new control, after any events, the location is non-negative on both axes |
| Gestures.MoveIdempotent | ResizableRectangle.cs:59-74 | repeating a move with the same pointer gives the same state, in every mode |
| Gestures.PressReleaseKeepsGeometry | ResizableRectangle.cs:38-80 | a press followed by a release keeps the geometry and leaves both flags clear |
| Gestures.TopLeftCornerDrag | ResizableRectangle.cs:137-155 | a TopLeft press at (5, 5) on a 100 by 100 control at (10, 10) dragged by (20, 10) gives (10, 20), 120 by 90 |
| Gestures.TopEdgeDragAtTheClamp | ResizableRectangle.cs:147-159 | a Top press on a 50 by 50 control at the origin dragged up by 10 keeps y at 0 and grows the height to 60 |
| Gestures.NoParentNoChange | ResizableRectangle.cs:113-129 | without a parent a move in any mode keeps the geometry |

## Left out

- The framework base class, event subscription, the background colour and the `Resize`
  event hookup: plumbing of the UI toolkit.
- `UpdateResizeZone` and the `_resizeZone` field: the method is empty and the field unused.
- Reading the global pointer and converting it to the parent's client coordinates: both
  values are parameters of the move handler, so the model does not tie them to each other.
  The press handler's read of the global pointer for the resize snapshot is likewise the
  `screen` parameter of `OnMouseDown`, not tied to the press's local point.
  `ResizeControl` reads the live global pointer twice, once per axis; the single `screen`
  parameter treats the two reads as one.
- The parent's `Width` and `Height` are its outer size (borders and title bar included),
  while locations are relative to its client area. The clamps and clips use the outer size,
  as the code does, so for a parent with borders the control can extend past the visible
  client edge; "inside the parent" in the model means inside that outer size.
- The framework's own behaviour when `Location`, `Size` and `Cursor` are assigned (layout,
  clamping, redraw): they are plain fields here.
- Cursor objects: a datatype of cursor kinds, with `Default` for the control's initial cursor.
- 32-bit integer overflow: coordinates are unbounded integers, so sums and differences that
  would wrap in the source do not wrap in the model.
