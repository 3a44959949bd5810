/**
 * The movable spot light: holding Alt activates light placement, pressing the mouse while
 * active starts a drag, and dragging puts the light two units above the point where the mouse
 * ray meets the horizontal light plane.
 */
module LightController {
  import opened Wrappers
  import opened Vectors

  /** Where the light starts. */
  const InitialLightPosition := Vec3(2.0, 4.0, 2.0)

  /** The light is kept this far above the point the mouse ray hits. */
  const LightLift := Vec3(0.0, 2.0, 0.0)

  /** The canvas rectangle on screen. */
  datatype Rect = Rect(left: real, top: real, width: real, height: real)

  /** Client coordinates to normalised device coordinates: x from -1 at the left edge to 1 at the right, y from 1 at the top to -1 at the bottom. */
  function DeviceCoordinates(clientX: real, clientY: real, rect: Rect): Vec2
    requires rect.width > 0.0 && rect.height > 0.0
  {
    Vec2((clientX - rect.left) / rect.width * 2.0 - 1.0, -((clientY - rect.top) / rect.height) * 2.0 + 1.0)
  }

  /** A mouse position inside the canvas maps into `[-1, 1]²`, corners to corners. */
  lemma DeviceCoordinatesInRange(clientX: real, clientY: real, rect: Rect)
    requires rect.width > 0.0 && rect.height > 0.0
    requires rect.left <= clientX <= rect.left + rect.width
    requires rect.top <= clientY <= rect.top + rect.height
    ensures -1.0 <= DeviceCoordinates(clientX, clientY, rect).x <= 1.0
    ensures -1.0 <= DeviceCoordinates(clientX, clientY, rect).y <= 1.0
    ensures clientX == rect.left ==> DeviceCoordinates(clientX, clientY, rect).x == -1.0
    ensures clientY == rect.top ==> DeviceCoordinates(clientX, clientY, rect).y == 1.0
  {
    var fx := (clientX - rect.left) / rect.width;
    var fy := (clientY - rect.top) / rect.height;
    UnitFraction(clientX - rect.left, rect.width);
    UnitFraction(clientY - rect.top, rect.height);
    assert DeviceCoordinates(clientX, clientY, rect) == Vec2(fx * 2.0 - 1.0, -fy * 2.0 + 1.0);
  }

  lemma UnitFraction(a: real, b: real)
    requires b > 0.0 && 0.0 <= a <= b
    ensures 0.0 <= a / b <= 1.0
  {
    assert a / b * b == a;
  }

  /** The light controller's state; the scene objects it owns are reduced to what it sets on them. */
  class LightController {
    var isActive: bool
    var isMoving: bool
    var helperVisible: bool
    var cursor: string
    var mouse: Vec2
    var lightPosition: Vec3
    var listening: bool

    /**
     * A drag only happens while active, and the helper shows whether it is active. `cursor` is
     * this controller's last write to the canvas cursor; the mouse handlers overwrite the canvas
     * style themselves, so it is not the cursor on screen.
     */
    predicate Valid()
      reads this
    {
      (isMoving ==> isActive)
      && helperVisible == isActive
      && cursor == (if isActive then "crosshair" else "")
    }

    constructor()
      ensures Valid()
      ensures !isActive && !isMoving && !helperVisible && listening
      ensures lightPosition == InitialLightPosition && mouse == Vec2(0.0, 0.0)
    {
      isActive := false;
      isMoving := false;
      helperVisible := false;
      cursor := "";
      mouse := Vec2(0.0, 0.0);
      lightPosition := InitialLightPosition;
      listening := true;
    }

    /** `handleKeyDown`: Alt while inactive activates placement and shows the helper. */
    method HandleKeyDown(altKey: bool)
      requires Valid()
      modifies this
      ensures Valid()
      ensures isActive == (old(isActive) || altKey)
      ensures isMoving == old(isMoving)
      ensures lightPosition == old(lightPosition) && mouse == old(mouse) && listening == old(listening)
    {
      if altKey && !isActive {
        isActive := true;
        helperVisible := true;
        cursor := "crosshair";
      }
    }

    /** `handleKeyUp`: releasing to no Alt while active ends placement and any drag. */
    method HandleKeyUp(altKey: bool)
      requires Valid()
      modifies this
      ensures Valid()
      ensures isActive == (old(isActive) && altKey)
      ensures isMoving == (old(isMoving) && altKey)
      ensures lightPosition == old(lightPosition) && mouse == old(mouse) && listening == old(listening)
    {
      if !altKey && isActive {
        isActive := false;
        isMoving := false;
        helperVisible := false;
        cursor := "";
      }
    }

    /** `handleMouseDown`: starts a drag when active; the event is consumed exactly then. */
    method HandleMouseDown() returns (consumed: bool)
      requires Valid()
      modifies this
      ensures Valid()
      ensures consumed == old(isActive)
      ensures isActive == old(isActive) && isMoving == (old(isMoving) || old(isActive))
      ensures lightPosition == old(lightPosition) && mouse == old(mouse) && listening == old(listening)
    {
      consumed := false;
      if isActive {
        isMoving := true;
        consumed := true;
      }
    }

    /** `handleMouseUp`: ends a drag when active. */
    method HandleMouseUp()
      requires Valid()
      modifies this
      ensures Valid()
      ensures isActive == old(isActive) && !isMoving
      ensures lightPosition == old(lightPosition) && mouse == old(mouse) && listening == old(listening)
    {
      if isActive {
        isMoving := false;
      }
    }

    /**
     * `handleMouseMove`: while dragging, the mouse position goes to device coordinates and, when the
     * ray through them hits the light plane (`hit`, found by the renderer), the light goes two
     * units above the hit point. Otherwise nothing changes.
     */
    method HandleMouseMove(clientX: real, clientY: real, rect: Rect, hit: Option<Vec3>) returns (consumed: bool)
      requires Valid()
      requires isActive && isMoving ==> rect.width > 0.0 && rect.height > 0.0
      modifies this
      ensures Valid()
      ensures consumed == (old(isActive) && old(isMoving))
      ensures isActive == old(isActive) && isMoving == old(isMoving) && listening == old(listening)
      ensures mouse == (if consumed then DeviceCoordinates(clientX, clientY, rect) else old(mouse))
      ensures lightPosition == (if consumed && hit.Some? then Add3(hit.value, LightLift) else old(lightPosition))
    {
      consumed := false;
      if isActive && isMoving {
        consumed := true;
        mouse := DeviceCoordinates(clientX, clientY, rect);
        if hit.Some? {
          lightPosition := Add3(hit.value, LightLift);
        }
      }
    }

    /** `dispose`: the handlers are detached. */
    method Dispose()
      requires Valid()
      modifies this
      ensures Valid()
      ensures !listening
      ensures isActive == old(isActive) && isMoving == old(isMoving) && lightPosition == old(lightPosition)
      ensures helperVisible == old(helperVisible) && cursor == old(cursor) && mouse == old(mouse)
    {
      listening := false;
    }
  }
}
