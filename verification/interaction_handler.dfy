/**
 * The marker-level mouse handler (`InteractionHandler.ts`): normalised mouse
 * coordinates, drag detection by distance or press duration, hover routing to the deity
 * markers and the optional labels, and click routing to the section callbacks.
 *
 * The raycast against markers and labels is an input (`Intersected`); the markers are the
 * `DeityMarkers` object itself; the labels component, the callbacks and the listeners are
 * observed through what the handler sends them (`Notice`) and whether they are set.
 */
module InteractionHandler {
  import opened Wrappers
  import opened Vectors
  import opened LiverData
  import DeityMarkers

  /** `getBoundingClientRect()` of the canvas. */
  datatype Rect = Rect(left: real, top: real, width: real, height: real)

  /** The canvas as the handler sees it: its client rectangle and its client size. */
  datatype Canvas = Canvas(rect: Rect, clientWidth: real, clientHeight: real)

  predicate CanvasOk(c: Canvas)
  {
    c.rect.width > 0.0 && c.rect.height > 0.0 && c.clientWidth >= 0.0 && c.clientHeight >= 0.0
  }

  /** `updateMouseCoordinates`: client pixels to normalised device coordinates, y pointing up. */
  function Ndc(cx: real, cy: real, r: Rect): Vec2
    requires r.width > 0.0 && r.height > 0.0
  {
    Vec2(((cx - r.left) / r.width) * 2.0 - 1.0, -((cy - r.top) / r.height) * 2.0 + 1.0)
  }

  /** A point of `[0, w]`, divided by `w`, lies in `[0, 1]`. */
  lemma FractionInUnit(a: real, w: real)
    requires w > 0.0 && 0.0 <= a <= w
    ensures 0.0 <= a / w <= 1.0
  {
    assert a / w * w == a;
  }

  /**
   * The canvas maps onto `[-1, 1]^2`: its top-left corner to `(-1, 1)`, its bottom-right
   * corner to `(1, -1)`, and every point inside it into the square.
   */
  lemma NdcCoversSquare(cx: real, cy: real, r: Rect)
    requires r.width > 0.0 && r.height > 0.0
    ensures Ndc(r.left, r.top, r) == Vec2(-1.0, 1.0)
    ensures Ndc(r.left + r.width, r.top + r.height, r) == Vec2(1.0, -1.0)
    ensures r.left <= cx <= r.left + r.width && r.top <= cy <= r.top + r.height ==>
      -1.0 <= Ndc(cx, cy, r).x <= 1.0 && -1.0 <= Ndc(cx, cy, r).y <= 1.0
  {
    assert (r.left + r.width - r.left) / r.width == 1.0;
    assert (r.top + r.height - r.top) / r.height == 1.0;
    if r.left <= cx <= r.left + r.width && r.top <= cy <= r.top + r.height {
      FractionInUnit(cx - r.left, r.width);
      FractionInUnit(cy - r.top, r.height);
    }
  }

  /** Pixels of mouse travel, and milliseconds of press, beyond which a press is a drag. */
  const DragThreshold: real := 5.0
  const ClickTimeThreshold: real := 300.0

  function Max(a: real, b: real): real { if a < b then b else a }

  /**
   * The travel test `distance(up, down) * max(w, h) / 2 > 5`, squared: the distance is a
   * square root, so the test compares squares (see `TravelTestBySquares`).
   */
  predicate Travelled(up: Vec2, down: Vec2, c: Canvas)
  {
    var k := Max(c.clientWidth, c.clientHeight) / 2.0;
    DistSq2(up, down) * (k * k) > DragThreshold * DragThreshold
  }

  /** For non-negative `p`, `p > 5` exactly when `p * p > 25`. */
  lemma SquareAboveFive(p: real)
    requires p >= 0.0
    ensures p > 5.0 <==> p * p > 25.0
  {
    if p > 5.0 {
      assert p * p > 5.0 * p;
    } else {
      assert p * p <= 5.0 * p;
    }
  }

  /** The squared travel test agrees with the source's, given the true distance `d`. */
  lemma TravelTestBySquares(up: Vec2, down: Vec2, c: Canvas, d: real)
    requires CanvasOk(c) && d >= 0.0 && d * d == DistSq2(up, down)
    ensures d * (Max(c.clientWidth, c.clientHeight) / 2.0) > DragThreshold <==> Travelled(up, down, c)
  {
    var k := Max(c.clientWidth, c.clientHeight) / 2.0;
    var p := d * k;
    assert p >= 0.0 by {
      if d > 0.0 && k > 0.0 {
        MulPositive(d, k);
      }
    }
    assert p * p == (d * d) * (k * k);
    SquareAboveFive(p);
  }

  /** The hit `getIntersectedObjects` reports: nothing, marker number `index`, or a label with its section. */
  datatype Intersected =
    | NoObject
    | MarkerObject(index: nat)
    | LabelObject(labelId: nat, section: Option<Inscription>)

  /** What the handler sends out besides the markers: label hovers and the three callbacks. */
  datatype Notice =
    | LabelHover(labelId: Option<nat>)
    | SectionHover(section: Option<Inscription>)
    | SectionClick(clicked: Inscription)
    | BackgroundClicked

  /** The marker `onMarkerHover` receives for a hit: the hit marker, or null. */
  function HoverTarget(hit: Intersected): Option<nat>
  {
    if hit.MarkerObject? then Some(hit.index) else None
  }

  /**
   * The notices of `processHoverInteraction`, `section` being the hit marker's section:
   * a marker hit clears the label hover; a label hit hovers the label; no hit clears the
   * label hover; then the hover callback, when set, receives the section or null.
   */
  function HoverNotices(hit: Intersected, hasLabels: bool, hasHoverCallback: bool, section: Option<Inscription>): (ns: seq<Notice>)
    ensures hasHoverCallback <==> |ns| > 0 && ns[|ns| - 1].SectionHover?
    ensures hasHoverCallback && hit.NoObject? ==> ns[|ns| - 1] == SectionHover(None)
    ensures forall i :: 0 <= i < |ns| ==> ns[i].LabelHover? || ns[i].SectionHover?
  {
    match hit
    case MarkerObject(_) =>
      (if hasLabels then [LabelHover(None)] else []) +
      (if hasHoverCallback then [SectionHover(section)] else [])
    case LabelObject(l, s) =>
      [LabelHover(Some(l))] + (if hasHoverCallback then [SectionHover(s)] else [])
    case NoObject =>
      (if hasLabels then [LabelHover(None)] else []) +
      (if hasHoverCallback then [SectionHover(None)] else [])
  }

  /**
   * The notices of a click that is not the end of a drag: a marker or label hit with a
   * section reports it when the click callback is set; no hit reports a background click
   * when that callback is set.
   */
  function ClickNotices(hit: Intersected, hasClickCallback: bool, hasBackgroundCallback: bool, section: Option<Inscription>): (ns: seq<Notice>)
    ensures |ns| <= 1
    ensures ns == [BackgroundClicked] <==> hit.NoObject? && hasBackgroundCallback
    ensures forall s :: ns == [SectionClick(s)] <==> !hit.NoObject? && hasClickCallback && section == Some(s)
  {
    if hit.NoObject? then (if hasBackgroundCallback then [BackgroundClicked] else [])
    else if hasClickCallback && section.Some? then [SectionClick(section.value)]
    else []
  }

  class InteractionHandler {
    const markers: DeityMarkers.DeityMarkers
    /** Whether a labels component was given. */
    const hasLabels: bool
    /** The mouse position in normalised device coordinates. */
    var mouse: Vec2
    var isDragging: bool
    var mouseDownPosition: Vec2
    var mouseDownTime: real
    /** Whether `onMarkerHover`, `onMarkerClick` and `onBackgroundClick` are set. */
    var hasHoverCallback: bool
    var hasClickCallback: bool
    var hasBackgroundCallback: bool
    /** Whether the four canvas listeners are attached. */
    var listening: bool
    /** The cursor style of the canvas, `None` until the handler first sets it. */
    var cursor: Option<string>

    constructor (markers: DeityMarkers.DeityMarkers, hasLabels: bool)
      ensures this.markers == markers && this.hasLabels == hasLabels
      ensures !isDragging && mouseDownTime == 0.0 && mouse == Vec2(0.0, 0.0)
      ensures !hasHoverCallback && !hasClickCallback && !hasBackgroundCallback && listening
    {
      this.markers := markers;
      this.hasLabels := hasLabels;
      mouse := Vec2(0.0, 0.0);
      isDragging := false;
      mouseDownPosition := Vec2(0.0, 0.0);
      mouseDownTime := 0.0;
      hasHoverCallback := false;
      hasClickCallback := false;
      hasBackgroundCallback := false;
      listening := true;
      cursor := None;
    }

    /** A hit names one of the handler's markers, and a label only when there are labels. */
    predicate HitOk(hit: Intersected)
      reads this, markers
    {
      (hit.MarkerObject? ==> hit.index < |markers.markers|) && (hit.LabelObject? ==> hasLabels)
    }

    /** The section of the hit marker (`getSectionFromMarker`), or the label's section. */
    function HitSection(hit: Intersected): Option<Inscription>
      requires HitOk(hit)
      reads this, markers
    {
      match hit
      case NoObject => None
      case MarkerObject(i) => Some(markers.markers[i].inscription)
      case LabelObject(_, s) => s
    }

    /** `handleMouseDown`: store the mouse position and the time; no drag yet. */
    method HandleMouseDown(cx: real, cy: real, canvas: Canvas, now: real)
      requires CanvasOk(canvas)
      modifies this
      ensures mouse == Ndc(cx, cy, canvas.rect) && mouseDownPosition == mouse
      ensures mouseDownTime == now && !isDragging
      ensures hasHoverCallback == old(hasHoverCallback) && hasClickCallback == old(hasClickCallback)
      ensures hasBackgroundCallback == old(hasBackgroundCallback) && listening == old(listening)
      ensures cursor == old(cursor)
    {
      mouse := Ndc(cx, cy, canvas.rect);
      mouseDownPosition := mouse;
      mouseDownTime := now;
      isDragging := false;
    }

    /** `handleMouseUp`: the press was a drag when the mouse travelled far enough or the press lasted too long. */
    method HandleMouseUp(cx: real, cy: real, canvas: Canvas, now: real)
      requires CanvasOk(canvas)
      modifies this
      ensures mouse == Ndc(cx, cy, canvas.rect)
      ensures isDragging == (old(isDragging) ||
        Travelled(mouse, old(mouseDownPosition), canvas) || now - old(mouseDownTime) > ClickTimeThreshold)
      ensures mouseDownPosition == old(mouseDownPosition) && mouseDownTime == old(mouseDownTime)
      ensures hasHoverCallback == old(hasHoverCallback) && hasClickCallback == old(hasClickCallback)
      ensures hasBackgroundCallback == old(hasBackgroundCallback) && listening == old(listening)
      ensures cursor == old(cursor)
    {
      mouse := Ndc(cx, cy, canvas.rect);
      var timeElapsed := now - mouseDownTime;
      if Travelled(mouse, mouseDownPosition, canvas) || timeElapsed > ClickTimeThreshold {
        isDragging := true;
      }
    }

    /**
     * `handleMouseMove`: while dragging, clear every hover and tell no callback; otherwise set
     * the cursor and route the hover.
     */
    method HandleMouseMove(cx: real, cy: real, canvas: Canvas, hit: Intersected) returns (sent: seq<Notice>)
      requires CanvasOk(canvas) && markers.Valid() && HitOk(hit)
      modifies this, markers
      ensures markers.Valid() && mouse == Ndc(cx, cy, canvas.rect)
      ensures isDragging == old(isDragging) && mouseDownPosition == old(mouseDownPosition)
      ensures mouseDownTime == old(mouseDownTime) && listening == old(listening)
      ensures hasHoverCallback == old(hasHoverCallback) && hasClickCallback == old(hasClickCallback)
      ensures hasBackgroundCallback == old(hasBackgroundCallback)
      ensures old(isDragging) ==>
        cursor == Some("grabbing") &&
        (markers.markers, markers.hoveredMarker) == DeityMarkers.Hover(old(markers.markers), old(markers.hoveredMarker), None) &&
        sent == (if hasLabels then [LabelHover(None)] else [])
      ensures !old(isDragging) ==>
        cursor == Some(if hit.NoObject? then "grab" else "pointer") &&
        (markers.markers, markers.hoveredMarker) ==
          DeityMarkers.Hover(old(markers.markers), old(markers.hoveredMarker), HoverTarget(hit)) &&
        sent == HoverNotices(hit, hasLabels, hasHoverCallback, old(HitSection(hit)))
    {
      mouse := Ndc(cx, cy, canvas.rect);
      if !isDragging {
        cursor := Some(if hit.NoObject? then "grab" else "pointer");
        sent := ProcessHoverInteraction(hit);
      } else {
        cursor := Some("grabbing");
        sent := ResetAllHoverStates();
      }
    }

    /** `processHoverInteraction`. */
    method ProcessHoverInteraction(hit: Intersected) returns (sent: seq<Notice>)
      requires markers.Valid() && HitOk(hit)
      modifies markers
      ensures markers.Valid()
      ensures (markers.markers, markers.hoveredMarker) ==
        DeityMarkers.Hover(old(markers.markers), old(markers.hoveredMarker), HoverTarget(hit))
      ensures sent == HoverNotices(hit, hasLabels, hasHoverCallback, old(HitSection(hit)))
    {
      ghost var section := HitSection(hit);
      match hit
      case MarkerObject(i) =>
        markers.OnMarkerHover(Some(i));
        sent := if hasLabels then [LabelHover(None)] else [];
        if hasHoverCallback {
          sent := sent + [SectionHover(Some(markers.markers[i].inscription))];
        }
      case LabelObject(l, s) =>
        sent := [LabelHover(Some(l))];
        markers.OnMarkerHover(None);
        if hasHoverCallback {
          sent := sent + [SectionHover(s)];
        }
      case NoObject =>
        sent := ResetAllHoverStates();
        if hasHoverCallback {
          sent := sent + [SectionHover(None)];
        }
    }

    /** `resetAllHoverStates`: no marker hovered, and no label when there are labels. */
    method ResetAllHoverStates() returns (sent: seq<Notice>)
      requires markers.Valid()
      modifies markers
      ensures markers.Valid()
      ensures (markers.markers, markers.hoveredMarker) ==
        DeityMarkers.Hover(old(markers.markers), old(markers.hoveredMarker), None)
      ensures sent == if hasLabels then [LabelHover(None)] else []
    {
      markers.OnMarkerHover(None);
      sent := if hasLabels then [LabelHover(None)] else [];
    }

    /**
     * `handleClick`: the click that ends a drag only clears the drag; any other click routes
     * to the section or background callback. Either way the drag flag ends cleared.
     */
    method HandleClick(cx: real, cy: real, canvas: Canvas, hit: Intersected) returns (sent: seq<Notice>)
      requires !isDragging ==> CanvasOk(canvas) && HitOk(hit)
      modifies this
      ensures !isDragging
      ensures old(isDragging) ==> sent == [] && mouse == old(mouse)
      ensures !old(isDragging) ==>
        mouse == Ndc(cx, cy, canvas.rect) &&
        sent == ClickNotices(hit, hasClickCallback, hasBackgroundCallback, HitSection(hit))
      ensures mouseDownPosition == old(mouseDownPosition) && mouseDownTime == old(mouseDownTime)
      ensures hasHoverCallback == old(hasHoverCallback) && hasClickCallback == old(hasClickCallback)
      ensures hasBackgroundCallback == old(hasBackgroundCallback) && listening == old(listening)
      ensures cursor == old(cursor)
    {
      if isDragging {
        isDragging := false;
        return [];
      }
      mouse := Ndc(cx, cy, canvas.rect);
      sent := [];
      if !hit.NoObject? {
        var section := HitSection(hit);
        if hasClickCallback && section.Some? {
          sent := [SectionClick(section.value)];
        }
      } else {
        if hasBackgroundCallback {
          sent := [BackgroundClicked];
        }
      }
      isDragging := false;
    }

    /** `setMarkerHoverCallback`, with `present` false for a null callback. */
    method SetMarkerHoverCallback(present: bool)
      modifies this
      ensures hasHoverCallback == present
      ensures hasClickCallback == old(hasClickCallback) && hasBackgroundCallback == old(hasBackgroundCallback)
      ensures isDragging == old(isDragging) && listening == old(listening)
      ensures mouse == old(mouse) && mouseDownPosition == old(mouseDownPosition)
      ensures mouseDownTime == old(mouseDownTime) && cursor == old(cursor)
    {
      hasHoverCallback := present;
    }

    /** `setMarkerClickCallback`. */
    method SetMarkerClickCallback(present: bool)
      modifies this
      ensures hasClickCallback == present
      ensures hasHoverCallback == old(hasHoverCallback) && hasBackgroundCallback == old(hasBackgroundCallback)
      ensures isDragging == old(isDragging) && listening == old(listening)
      ensures mouse == old(mouse) && mouseDownPosition == old(mouseDownPosition)
      ensures mouseDownTime == old(mouseDownTime) && cursor == old(cursor)
    {
      hasClickCallback := present;
    }

    /** `setBackgroundClickCallback`. */
    method SetBackgroundClickCallback(present: bool)
      modifies this
      ensures hasBackgroundCallback == present
      ensures hasHoverCallback == old(hasHoverCallback) && hasClickCallback == old(hasClickCallback)
      ensures isDragging == old(isDragging) && listening == old(listening)
      ensures mouse == old(mouse) && mouseDownPosition == old(mouseDownPosition)
      ensures mouseDownTime == old(mouseDownTime) && cursor == old(cursor)
    {
      hasBackgroundCallback := present;
    }

    /** `setEnabled`: attach or detach the listeners. */
    method SetEnabled(enabled: bool)
      modifies this
      ensures listening == enabled
      ensures hasHoverCallback == old(hasHoverCallback) && hasClickCallback == old(hasClickCallback)
      ensures hasBackgroundCallback == old(hasBackgroundCallback) && isDragging == old(isDragging)
      ensures mouse == old(mouse) && mouseDownPosition == old(mouseDownPosition)
      ensures mouseDownTime == old(mouseDownTime) && cursor == old(cursor)
    {
      listening := enabled;
    }

    /** `dispose`: detach the listeners and drop all three callbacks. */
    method Dispose()
      modifies this
      ensures !listening && !hasHoverCallback && !hasClickCallback && !hasBackgroundCallback
      ensures isDragging == old(isDragging) && mouse == old(mouse)
      ensures mouseDownPosition == old(mouseDownPosition) && mouseDownTime == old(mouseDownTime) && cursor == old(cursor)
    {
      listening := false;
      hasHoverCallback := false;
      hasClickCallback := false;
      hasBackgroundCallback := false;
    }
  }
}
