/**
 * The camera motion controller of `src/core/CameraController.ts` and its variant in
 * `src/controllers/CameraController.ts`: it remembers the user's last manual pose, animates
 * the camera and orbit target between poses through the shared scheduler, and lets a user
 * drag interrupt an animation.
 *
 * The camera position and the orbit target are the controller's `position` and `target`
 * fields; the orbit controls move them outside the controller. The tween callbacks the
 * controller hands to the scheduler are the methods `FrameUpdate` and `FrameComplete`, run
 * with the path of the current animation. Angle tests between unit view directions are
 * cosine tests: `angle < 45°` is `cos > 0 && 2·cos² > 1`, `angle > 90°` is `cos < 0`.
 */
module CameraController {
  import opened Wrappers
  import opened Vectors
  import Animator

  /** `Core` rolls the end position toward the current view; `Controllers` does not. */
  datatype Variant = Core | Controllers

  const FocusKey := "camera-focus"
  const ReturnKey := "camera-return"
  const CenterKey := "camera-center"
  const ResetKey := "camera-reset"

  const DefaultFocusDuration := 800.0
  const DefaultReturnDuration := 1000.0
  const DefaultCenterDuration := 600.0
  const DefaultResetDuration := 1000.0

  /** The pose both files start from and `resetToDefault` returns to. */
  const DefaultPosition := Vec3(0.0, 2.0, 3.0)
  const DefaultTarget := Zero3
  /** The offset from the target to the camera when `focusOn` gets no camera position. */
  const FocusOffset := Vec3(0.0, 0.5, 1.0)
  /** The closest `centerLiver` lets the camera be to the origin. */
  const MinCenterDistance := 1.5

  datatype Motion = Focus | Return | Center | Reset

  /** The easing each animation uses in each variant. */
  function EasingFor(v: Variant, m: Motion): (e: Animator.Easing)
    ensures v == Core ==> e == Animator.InOutBalanced
    ensures v == Controllers ==> (e == Animator.InOutQuart <==> m == Focus || m == Center)
    ensures v == Controllers ==> (e == Animator.OutCubic <==> m == Return || m == Reset)
  {
    match v
    case Core => Animator.InOutBalanced
    case Controllers =>
      match m
      case Focus => Animator.InOutQuart
      case Center => Animator.InOutQuart
      case Return => Animator.OutCubic
      case Reset => Animator.OutCubic
  }

  function DurationOr(d: Option<real>, default: real): real
  {
    if d.Some? then d.value else default
  }

  /** The endpoints a camera tween interpolates between. */
  datatype Path = Path(startPosition: Vec3, endPosition: Vec3, startTarget: Vec3, endTarget: Vec3)

  // ---------------------------------------------------------------------------------------
  // Roll-safe end positions
  // ---------------------------------------------------------------------------------------

  /** How far two (normalised) view directions differ, as `angleTo` compared with 45° and 90°. */
  datatype Turn = Slight | Moderate | Sharp

  /**
   * `angleTo` of two normalised directions against 45° and 90°; a zero vector has angle 90°
   * in three.js, which is neither below 45° nor above 90°.
   */
  function TurnBetween(s: Vec3, e: Vec3): Turn
  {
    if s == Zero3 || e == Zero3 then Moderate
    else
      var c := Dot3(s, e);
      if c > 0.0 && 2.0 * c * c > 1.0 then Slight
      else if c < 0.0 then Sharp
      else Moderate
  }

  /** The view direction from a target to a camera, normalised. */
  function ViewDirection(length: Vec3 -> real, position: Vec3, target: Vec3): Vec3
  {
    Normalize3(Sub3(position, target), length)
  }

  /** The turn from the view of one pose to the view of another. */
  function PoseTurn(length: Vec3 -> real, startPosition: Vec3, startTarget: Vec3, endPosition: Vec3, endTarget: Vec3): Turn
  {
    TurnBetween(ViewDirection(length, startPosition, startTarget), ViewDirection(length, endPosition, endTarget))
  }

  /** `a·s + b·e`, the blend of two directions. */
  function Blend(s: Vec3, e: Vec3, a: real, b: real): Vec3
  {
    Add3(Scale3(s, a), Scale3(e, b))
  }

  /** The point at `distance` from `target` along the normalised `direction`. */
  function AlongFrom(length: Vec3 -> real, target: Vec3, direction: Vec3, distance: real): Vec3
  {
    Add3(target, Scale3(Normalize3(direction, length), distance))
  }

  /**
   * `calculateRollSafePosition`: keeps the end position for a slight turn; otherwise moves
   * it, at its distance from the end target, onto a 40/60 blend of the two view directions
   * for a sharp turn or onto their half-way direction for a moderate one.
   */
  function RollSafePosition(length: Vec3 -> real, startPosition: Vec3, startTarget: Vec3,
                            endPosition: Vec3, endTarget: Vec3): (r: Vec3)
    requires IsLength(length)
    ensures PoseTurn(length, startPosition, startTarget, endPosition, endTarget) == Slight ==> r == endPosition
    ensures NormSq3(Sub3(r, endTarget)) == NormSq3(Sub3(endPosition, endTarget))
  {
    var s := ViewDirection(length, startPosition, startTarget);
    var e := ViewDirection(length, endPosition, endTarget);
    var distance := length(Sub3(endPosition, endTarget));
    match TurnBetween(s, e)
    case Slight => endPosition
    case Sharp =>
      SharpBlendKeepsDistance(length, startPosition, startTarget, endPosition, endTarget, 0.4, 0.6);
      AlongFrom(length, endTarget, Blend(s, e, 0.4, 0.6), distance)
    case Moderate =>
      ModerateBlendKeepsDistance(length, startPosition, startTarget, endPosition, endTarget);
      AlongFrom(length, endTarget, Add3(s, e), distance)
  }

  /** The end position `focusOn` starts from: the given camera position, or the target plus the fixed offset. */
  function RequestedEnd(targetPosition: Vec3, custom: Option<Vec3>): (r: Vec3)
    ensures custom.None? ==> Sub3(r, targetPosition) == FocusOffset
  {
    if custom.Some? then custom.value else Add3(targetPosition, FocusOffset)
  }

  /** The 30/70 blend toward the current view that `focusOn` applies for a sharp turn. */
  function ConservativeEnd(length: Vec3 -> real, startPosition: Vec3, startTarget: Vec3,
                           endPosition: Vec3, endTarget: Vec3): (r: Vec3)
    requires IsLength(length)
    ensures PoseTurn(length, startPosition, startTarget, endPosition, endTarget) != Sharp ==> r == endPosition
    ensures NormSq3(Sub3(r, endTarget)) == NormSq3(Sub3(endPosition, endTarget))
  {
    var s := ViewDirection(length, startPosition, startTarget);
    var e := ViewDirection(length, endPosition, endTarget);
    if TurnBetween(s, e) == Sharp then
      SharpBlendKeepsDistance(length, startPosition, startTarget, endPosition, endTarget, 0.3, 0.7);
      AlongFrom(length, endTarget, Blend(s, e, 0.3, 0.7), length(Sub3(endPosition, endTarget)))
    else endPosition
  }

  /** The end position of `focusOn`: requested, then (core variant only) both roll adjustments. */
  function FocusEnd(v: Variant, length: Vec3 -> real, startPosition: Vec3, startTarget: Vec3,
                    targetPosition: Vec3, custom: Option<Vec3>): (r: Vec3)
    requires IsLength(length)
    ensures v == Controllers ==> r == RequestedEnd(targetPosition, custom)
    ensures NormSq3(Sub3(r, targetPosition)) == NormSq3(Sub3(RequestedEnd(targetPosition, custom), targetPosition))
  {
    var requested := RequestedEnd(targetPosition, custom);
    match v
    case Controllers => requested
    case Core =>
      var conservative := ConservativeEnd(length, startPosition, startTarget, requested, targetPosition);
      RollSafePosition(length, startPosition, startTarget, conservative, targetPosition)
  }

  /** `centerLiver`'s end position: along the camera's direction from the origin, at least 1.5 away. */
  function CenterEnd(length: Vec3 -> real, startPosition: Vec3): (r: Vec3)
  {
    var l := length(startPosition);
    Scale3(Normalize3(startPosition, length), if MinCenterDistance > l then MinCenterDistance else l)
  }

  // ---------------------------------------------------------------------------------------
  // Geometry lemmas
  // ---------------------------------------------------------------------------------------

  /** The squared length of a blend, expanded. */
  lemma BlendNormSq(s: Vec3, e: Vec3, a: real, b: real)
    ensures NormSq3(Blend(s, e, a, b)) == a * a * NormSq3(s) + b * b * NormSq3(e) + 2.0 * a * b * Dot3(s, e)
  {
    assert (a * s.x + b * e.x) * (a * s.x + b * e.x) == a * a * (s.x * s.x) + b * b * (e.x * e.x) + 2.0 * a * b * (s.x * e.x);
    assert (a * s.y + b * e.y) * (a * s.y + b * e.y) == a * a * (s.y * s.y) + b * b * (e.y * e.y) + 2.0 * a * b * (s.y * e.y);
    assert (a * s.z + b * e.z) * (a * s.z + b * e.z) == a * a * (s.z * s.z) + b * b * (e.z * e.z) + 2.0 * a * b * (s.z * e.z);
  }

  /** The cosine of two unit vectors is at least -1. */
  lemma UnitDotAtLeastMinusOne(s: Vec3, e: Vec3)
    requires NormSq3(s) == 1.0 && NormSq3(e) == 1.0
    ensures Dot3(s, e) >= -1.0
  {
    DotBound(s, e);
  }

  /** A normalised direction is zero exactly when the vector it came from is. */
  lemma DirectionZero(length: Vec3 -> real, v: Vec3)
    requires IsLength(length)
    ensures Normalize3(v, length) == Zero3 <==> v == Zero3
    ensures v != Zero3 ==> NormSq3(Normalize3(v, length)) == 1.0
  {
    NormalizeUnit(v, length);
  }

  /** Placing a point along a non-zero direction at the length of `offset` keeps that length. */
  lemma AlongFromKeepsDistance(length: Vec3 -> real, target: Vec3, direction: Vec3, offset: Vec3)
    requires IsLength(length)
    requires direction != Zero3 || offset == Zero3
    ensures NormSq3(Sub3(AlongFrom(length, target, direction, length(offset)), target)) == NormSq3(offset)
  {
    var u := Normalize3(direction, length);
    var d := length(offset);
    DirectionZero(length, direction);
    assert Sub3(AlongFrom(length, target, direction, d), target) == Scale3(u, d);
    NormSqScale(u, d);
    if direction == Zero3 {
      assert d == 0.0;
    }
  }

  /** A sharp-turn blend `a·s + b·e` with `0 < a < b` is not zero, so the distance to the target is kept. */
  lemma SharpBlendKeepsDistance(length: Vec3 -> real, startPosition: Vec3, startTarget: Vec3,
                                endPosition: Vec3, endTarget: Vec3, a: real, b: real)
    requires IsLength(length)
    requires (a, b) == (0.4, 0.6) || (a, b) == (0.3, 0.7)
    requires PoseTurn(length, startPosition, startTarget, endPosition, endTarget) == Sharp
    ensures NormSq3(Sub3(AlongFrom(length, endTarget,
              Blend(ViewDirection(length, startPosition, startTarget), ViewDirection(length, endPosition, endTarget), a, b),
              length(Sub3(endPosition, endTarget))), endTarget))
            == NormSq3(Sub3(endPosition, endTarget))
  {
    var s := ViewDirection(length, startPosition, startTarget);
    var e := ViewDirection(length, endPosition, endTarget);
    DirectionZero(length, Sub3(startPosition, startTarget));
    DirectionZero(length, Sub3(endPosition, endTarget));
    UnitDotAtLeastMinusOne(s, e);
    BlendNormSq(s, e, a, b);
    assert NormSq3(Blend(s, e, a, b)) > 0.0;
    AlongFromKeepsDistance(length, endTarget, Blend(s, e, a, b), Sub3(endPosition, endTarget));
  }

  /** The half-way direction of a moderate turn is zero only when both directions are. */
  lemma ModerateBlendKeepsDistance(length: Vec3 -> real, startPosition: Vec3, startTarget: Vec3,
                                   endPosition: Vec3, endTarget: Vec3)
    requires IsLength(length)
    requires PoseTurn(length, startPosition, startTarget, endPosition, endTarget) == Moderate
    ensures NormSq3(Sub3(AlongFrom(length, endTarget,
              Add3(ViewDirection(length, startPosition, startTarget), ViewDirection(length, endPosition, endTarget)),
              length(Sub3(endPosition, endTarget))), endTarget))
            == NormSq3(Sub3(endPosition, endTarget))
  {
    var s := ViewDirection(length, startPosition, startTarget);
    var e := ViewDirection(length, endPosition, endTarget);
    DirectionZero(length, Sub3(startPosition, startTarget));
    DirectionZero(length, Sub3(endPosition, endTarget));
    if s != Zero3 && e != Zero3 {
      BlendNormSq(s, e, 1.0, 1.0);
      assert Blend(s, e, 1.0, 1.0) == Add3(s, e);
      assert NormSq3(Add3(s, e)) > 0.0;
    } else if e != Zero3 {
      assert Add3(s, e) == e;
    }
    AlongFromKeepsDistance(length, endTarget, Add3(s, e), Sub3(endPosition, endTarget));
  }

  /** A non-negative number whose square is `r * r` for a non-negative `r` is `r`. */
  lemma NonNegativeRoot(l: real, r: real)
    requires l >= 0.0 && r >= 0.0 && l * l == r * r
    ensures l == r
  {
    assert (l - r) * (l + r) == 0.0;
    if l + r == 0.0 {
      assert l == 0.0;
    } else {
      assert l - r == 0.0;
    }
  }

  /** A non-zero vector is its normalised direction scaled by its length. */
  lemma NormalizeTimesLength(length: Vec3 -> real, v: Vec3)
    requires IsLength(length)
    ensures Scale3(Normalize3(v, length), length(v)) == v
  {
    var l := length(v);
    if v != Zero3 {
      var k := 1.0 / l;
      assert k * l == 1.0;
      assert (v.x * k) * l == v.x * (k * l);
      assert (v.y * k) * l == v.y * (k * l);
      assert (v.z * k) * l == v.z * (k * l);
    }
  }

  /** A positive multiple of a unit vector normalises back to it. */
  lemma NormalizeScaledUnit(length: Vec3 -> real, u: Vec3, c: real)
    requires IsLength(length) && NormSq3(u) == 1.0 && c > 0.0
    ensures Normalize3(Scale3(u, c), length) == u
  {
    var w := Scale3(u, c);
    NormSqScale(u, c);
    assert NormSq3(w) == c * c;
    assert length(w) * length(w) == c * c;
    NonNegativeRoot(length(w), c);
    assert Normalize3(w, length) == Scale3(w, 1.0 / c);
    ScaleInverse(u, c);
  }

  lemma ScaleInverse(u: Vec3, c: real)
    requires c != 0.0
    ensures Scale3(Scale3(u, c), 1.0 / c) == u
  {
    var k := 1.0 / c;
    assert c * k == 1.0;
    assert (u.x * c) * k == u.x * (c * k);
    assert (u.y * c) * k == u.y * (c * k);
    assert (u.z * c) * k == u.z * (c * k);
  }

  /** Reversing a vector reverses its normalised direction. */
  lemma NormalizeNegated(length: Vec3 -> real, v: Vec3)
    requires IsLength(length)
    ensures Normalize3(Scale3(v, -1.0), length) == Scale3(Normalize3(v, length), -1.0)
  {
    var w := Scale3(v, -1.0);
    NormSqScale(v, -1.0);
    NonNegativeRoot(length(w), length(v));
  }

  /**
   * The 30/70 and 40/60 blends of the core variant are its conservative approach to turns past
   * 90°. When the requested view is exactly opposite the current one, both blends give back the
   * requested position: the turn stays at 180°.
   */
  lemma OppositeViewStaysOpposite(length: Vec3 -> real, startPosition: Vec3, startTarget: Vec3,
                                  targetPosition: Vec3, custom: Vec3)
    requires IsLength(length)
    requires startPosition != startTarget
    requires Sub3(custom, targetPosition) == Scale3(Sub3(startPosition, startTarget), -1.0)
    ensures PoseTurn(length, startPosition, startTarget, custom, targetPosition) == Sharp
    ensures FocusEnd(Core, length, startPosition, startTarget, targetPosition, Some(custom)) == custom
  {
    var s := ViewDirection(length, startPosition, startTarget);
    var e := ViewDirection(length, custom, targetPosition);
    OppositeViews(length, startPosition, startTarget, targetPosition, custom);
    OppositeBlendReturns(length, s, targetPosition, custom, 0.3, 0.7);
    assert ConservativeEnd(length, startPosition, startTarget, custom, targetPosition) == custom;
    OppositeBlendReturns(length, s, targetPosition, custom, 0.4, 0.6);
  }

  /** Exactly opposite views have opposite unit directions, a sharp turn. */
  lemma OppositeViews(length: Vec3 -> real, startPosition: Vec3, startTarget: Vec3,
                      targetPosition: Vec3, custom: Vec3)
    requires IsLength(length)
    requires startPosition != startTarget
    requires Sub3(custom, targetPosition) == Scale3(Sub3(startPosition, startTarget), -1.0)
    ensures NormSq3(ViewDirection(length, startPosition, startTarget)) == 1.0
    ensures ViewDirection(length, custom, targetPosition) == Scale3(ViewDirection(length, startPosition, startTarget), -1.0)
    ensures PoseTurn(length, startPosition, startTarget, custom, targetPosition) == Sharp
  {
    var v := Sub3(startPosition, startTarget);
    DifferenceNonZero(startPosition, startTarget);
    NormalizeUnit(v, length);
    NormalizeNegated(length, v);
    OppositeTurnIsSharp(Normalize3(v, length));
  }

  lemma DifferenceNonZero(p: Vec3, q: Vec3)
    requires p != q
    ensures Sub3(p, q) != Zero3
  {
    if p.x == q.x && p.y == q.y {
      assert p.z != q.z;
    }
  }

  lemma OppositeTurnIsSharp(s: Vec3)
    requires NormSq3(s) == 1.0
    ensures TurnBetween(s, Scale3(s, -1.0)) == Sharp
  {
    assert Dot3(s, Scale3(s, -1.0)) == s.x * (s.x * -1.0) + s.y * (s.y * -1.0) + s.z * (s.z * -1.0);
    assert Dot3(s, Scale3(s, -1.0)) == -NormSq3(s);
    assert s != Zero3;
    assert Scale3(s, -1.0) != Zero3;
  }

  /**
   * Blending a unit direction `s` with its opposite `e = -s` by `a < b` points along `e`,
   * so the point placed along the blend at the length of `custom - target` is `custom`
   * itself, when `e` is the direction of `custom - target`.
   */
  lemma OppositeBlendReturns(length: Vec3 -> real, s: Vec3, target: Vec3, custom: Vec3, a: real, b: real)
    requires IsLength(length) && NormSq3(s) == 1.0 && 0.0 <= a < b
    requires Normalize3(Sub3(custom, target), length) == Scale3(s, -1.0)
    ensures AlongFrom(length, target, Blend(s, Scale3(s, -1.0), a, b), length(Sub3(custom, target))) == custom
  {
    var e := Scale3(s, -1.0);
    var w := Sub3(custom, target);
    NormSqScale(s, -1.0);
    BlendOfOpposite(s, a, b);
    NormalizeScaledUnit(length, e, b - a);
    NormalizeTimesLength(length, w);
    assert Add3(target, w) == custom;
  }

  lemma BlendOfOpposite(s: Vec3, a: real, b: real)
    ensures Blend(s, Scale3(s, -1.0), a, b) == Scale3(Scale3(s, -1.0), b - a)
  {
    assert s.x * a + (s.x * -1.0) * b == (s.x * -1.0) * (b - a);
    assert s.y * a + (s.y * -1.0) * b == (s.y * -1.0) * (b - a);
    assert s.z * a + (s.z * -1.0) * b == (s.z * -1.0) * (b - a);
  }

  /** `centerLiver` keeps the camera on its ray from the origin, at distance max(1.5, |start|). */
  lemma CenterEndOnRay(length: Vec3 -> real, startPosition: Vec3)
    requires IsLength(length)
    ensures startPosition == Zero3 ==> CenterEnd(length, startPosition) == Zero3
    ensures startPosition != Zero3 ==>
      var l := length(startPosition);
      var d := if MinCenterDistance > l then MinCenterDistance else l;
      CenterEnd(length, startPosition) == Scale3(startPosition, d / l) && NormSq3(CenterEnd(length, startPosition)) == d * d
  {
    var l := length(startPosition);
    var d := if MinCenterDistance > l then MinCenterDistance else l;
    DirectionZero(length, startPosition);
    if startPosition != Zero3 {
      var u := Normalize3(startPosition, length);
      assert u == Scale3(startPosition, 1.0 / l);
      assert (1.0 / l) * d == d / l;
      assert Scale3(u, d) == Scale3(startPosition, d / l);
      NormSqScale(u, d);
    }
  }

  /** The last frame of a tween (eased progress 1) puts the camera and target at the path's end. */
  lemma FinalFrameReachesEnd(path: Path, e: Animator.Easing)
    ensures Lerp3(path.startPosition, path.endPosition, Animator.Ease(e, 1.0)) == path.endPosition
    ensures Lerp3(path.startTarget, path.endTarget, Animator.Ease(e, 1.0)) == path.endTarget
  {
    Animator.EasingEndpoints(e);
    LerpEndpoints(path.startPosition, path.endPosition);
    LerpEndpoints(path.startTarget, path.endTarget);
  }

  /** The entries left after `stopAnimation`: the current key is removed only when animating with one. */
  function AfterStop(es: seq<Animator.Entry>, isAnimating: bool, id: Option<string>): seq<Animator.Entry>
  {
    if isAnimating && id.Some? then Animator.Delete(es, id.value) else es
  }

  // ---------------------------------------------------------------------------------------
  // The controller
  // ---------------------------------------------------------------------------------------

  class CameraController {
    const variant: Variant
    /** The shared scheduler (`globalAnimator`). */
    const animator: Animator.OptimizedAnimator
    /** `Vector3.length`. */
    const length: Vec3 -> real
    /** `camera.position` and `controls.target`. */
    var position: Vec3
    var target: Vec3
    var lastManualPosition: Vec3
    var lastManualTarget: Vec3
    var isAnimating: bool
    var currentAnimationId: Option<string>
    /** The endpoints captured by the current tween's update callback. */
    var path: Path
    var listening: bool

    /** The scheduler is consistent, and the controller animates exactly when it holds a key. */
    ghost predicate Valid()
      reads this, animator
    {
      IsLength(length) && animator.Valid() && (isAnimating <==> currentAnimationId.Some?)
    }

    constructor(variant: Variant, animator: Animator.OptimizedAnimator, length: Vec3 -> real,
                position: Vec3, target: Vec3)
      requires IsLength(length) && animator.Valid()
      ensures Valid()
      ensures this.variant == variant && this.animator == animator && this.length == length
      ensures this.position == position && this.target == target
      ensures lastManualPosition == DefaultPosition && lastManualTarget == DefaultTarget
      ensures !isAnimating && currentAnimationId == None && listening
    {
      this.variant := variant;
      this.animator := animator;
      this.length := length;
      this.position := position;
      this.target := target;
      lastManualPosition := DefaultPosition;
      lastManualTarget := DefaultTarget;
      isAnimating := false;
      currentAnimationId := None;
      path := Path(position, position, target, target);
      listening := true;
    }

    /** The controls' `start` event: a user drag interrupts a running animation. */
    method HandleControlsStart()
      requires Valid()
      modifies this, animator
      ensures Valid()
      ensures animator.entries == AfterStop(old(animator.entries), old(isAnimating), old(currentAnimationId))
      ensures animator.isRunning == old(animator.isRunning)
      ensures !isAnimating && currentAnimationId == None
      ensures lastManualPosition == old(lastManualPosition) && lastManualTarget == old(lastManualTarget)
      ensures position == old(position) && target == old(target) && path == old(path)
      ensures listening == old(listening)
    {
      if isAnimating {
        StopAnimation();
      }
    }

    /** The controls' `end` and `change` events: record the pose as manual unless animating. */
    method HandleControlsChange()
      requires Valid()
      modifies this
      ensures Valid()
      ensures old(isAnimating) ==> lastManualPosition == old(lastManualPosition) && lastManualTarget == old(lastManualTarget)
      ensures !old(isAnimating) ==> lastManualPosition == position && lastManualTarget == target
      ensures position == old(position) && target == old(target)
      ensures isAnimating == old(isAnimating) && currentAnimationId == old(currentAnimationId)
      ensures path == old(path) && listening == old(listening)
    {
      if !isAnimating {
        lastManualPosition := position;
        lastManualTarget := target;
      }
    }

    /** `stopAnimation`: only when animating with a key, removes it from the scheduler and clears both. */
    method StopAnimation()
      requires Valid()
      modifies this, animator
      ensures Valid()
      ensures animator.entries == AfterStop(old(animator.entries), old(isAnimating), old(currentAnimationId))
      ensures animator.isRunning == old(animator.isRunning)
      ensures !isAnimating && currentAnimationId == None
      ensures lastManualPosition == old(lastManualPosition) && lastManualTarget == old(lastManualTarget)
      ensures position == old(position) && target == old(target) && path == old(path)
      ensures listening == old(listening)
    {
      if isAnimating && currentAnimationId.Some? {
        var _ := animator.Stop(currentAnimationId.value);
        isAnimating := false;
        currentAnimationId := None;
      }
    }

    /** Schedules the camera tween along `p` under `key`: the shared tail of the four animations. */
    method Launch(key: string, duration: real, easing: Animator.Easing, p: Path, now: real) returns (id: string)
      requires Valid() && duration > 0.0
      modifies this, animator
      ensures Valid()
      ensures id == key && isAnimating && currentAnimationId == Some(key) && path == p
      ensures animator.entries == Animator.Set(old(animator.entries), Animator.Entry(key, now, duration, easing, true))
      ensures lastManualPosition == old(lastManualPosition) && lastManualTarget == old(lastManualTarget)
      ensures position == old(position) && target == old(target) && listening == old(listening)
      ensures animator.isRunning
    {
      path := p;
      isAnimating := true;
      var requested;
      id, requested := animator.Animate(key, duration, Some(easing), true, now);
      currentAnimationId := Some(id);
    }

    /**
     * `focusOn`: stops any animation, records the pose at call time as the manual pose, and
     * animates to the target with the requested end position (roll-adjusted in `Core`).
     */
    method FocusOn(targetPosition: Vec3, duration: Option<real>, custom: Option<Vec3>, now: real) returns (id: string)
      requires Valid() && (duration.Some? ==> duration.value > 0.0)
      modifies this, animator
      ensures Valid()
      ensures lastManualPosition == old(position) && lastManualTarget == old(target)
      ensures id == FocusKey && isAnimating && currentAnimationId == Some(FocusKey)
      ensures path == Path(old(position), FocusEnd(variant, length, old(position), old(target), targetPosition, custom),
                           old(target), targetPosition)
      ensures animator.entries == Animator.Set(
        AfterStop(old(animator.entries), old(isAnimating), old(currentAnimationId)),
        Animator.Entry(FocusKey, now, DurationOr(duration, DefaultFocusDuration), EasingFor(variant, Focus), true))
      ensures position == old(position) && target == old(target) && listening == old(listening)
      ensures animator.isRunning
    {
      StopAnimation();
      lastManualPosition := position;
      lastManualTarget := target;
      var endPosition := FocusEnd(variant, length, position, target, targetPosition, custom);
      id := Launch(FocusKey, DurationOr(duration, DefaultFocusDuration), EasingFor(variant, Focus),
                   Path(position, endPosition, target, targetPosition), now);
    }

    /** `returnToManualPosition`: animates back to the last manual pose. */
    method ReturnToManualPosition(duration: Option<real>, now: real) returns (id: string)
      requires Valid() && (duration.Some? ==> duration.value > 0.0)
      modifies this, animator
      ensures Valid()
      ensures id == ReturnKey && isAnimating && currentAnimationId == Some(ReturnKey)
      ensures path == Path(old(position), old(lastManualPosition), old(target), old(lastManualTarget))
      ensures animator.entries == Animator.Set(
        AfterStop(old(animator.entries), old(isAnimating), old(currentAnimationId)),
        Animator.Entry(ReturnKey, now, DurationOr(duration, DefaultReturnDuration), EasingFor(variant, Return), true))
      ensures lastManualPosition == old(lastManualPosition) && lastManualTarget == old(lastManualTarget)
      ensures position == old(position) && target == old(target) && listening == old(listening)
      ensures animator.isRunning
    {
      StopAnimation();
      id := Launch(ReturnKey, DurationOr(duration, DefaultReturnDuration), EasingFor(variant, Return),
                   Path(position, lastManualPosition, target, lastManualTarget), now);
    }

    /** `centerLiver`: animates the target to the origin, keeping the camera's direction from it. */
    method CenterLiver(duration: Option<real>, now: real) returns (id: string)
      requires Valid() && (duration.Some? ==> duration.value > 0.0)
      modifies this, animator
      ensures Valid()
      ensures id == CenterKey && isAnimating && currentAnimationId == Some(CenterKey)
      ensures path == Path(old(position), CenterEnd(length, old(position)), old(target), Zero3)
      ensures animator.entries == Animator.Set(
        AfterStop(old(animator.entries), old(isAnimating), old(currentAnimationId)),
        Animator.Entry(CenterKey, now, DurationOr(duration, DefaultCenterDuration), EasingFor(variant, Center), true))
      ensures lastManualPosition == old(lastManualPosition) && lastManualTarget == old(lastManualTarget)
      ensures position == old(position) && target == old(target) && listening == old(listening)
      ensures animator.isRunning
    {
      StopAnimation();
      id := Launch(CenterKey, DurationOr(duration, DefaultCenterDuration), EasingFor(variant, Center),
                   Path(position, CenterEnd(length, position), target, Zero3), now);
    }

    /** `resetToDefault`: makes the default pose the manual pose, then animates to it. */
    method ResetToDefault(duration: Option<real>, now: real) returns (id: string)
      requires Valid() && (duration.Some? ==> duration.value > 0.0)
      modifies this, animator
      ensures Valid()
      ensures lastManualPosition == DefaultPosition && lastManualTarget == DefaultTarget
      ensures id == ResetKey && isAnimating && currentAnimationId == Some(ResetKey)
      ensures path == Path(old(position), DefaultPosition, old(target), DefaultTarget)
      ensures animator.entries == Animator.Set(
        AfterStop(old(animator.entries), old(isAnimating), old(currentAnimationId)),
        Animator.Entry(ResetKey, now, DurationOr(duration, DefaultResetDuration), EasingFor(variant, Reset), true))
      ensures position == old(position) && target == old(target) && listening == old(listening)
      ensures animator.isRunning
    {
      StopAnimation();
      lastManualPosition := DefaultPosition;
      lastManualTarget := DefaultTarget;
      id := Launch(ResetKey, DurationOr(duration, DefaultResetDuration), EasingFor(variant, Reset),
                   Path(position, DefaultPosition, target, DefaultTarget), now);
    }

    /** The tween's update callback: a no-op once not animating, else both lerped by the same eased progress. */
    method FrameUpdate(eased: real)
      requires Valid()
      modifies this
      ensures Valid()
      ensures !old(isAnimating) ==> position == old(position) && target == old(target)
      ensures old(isAnimating) ==>
        position == Lerp3(path.startPosition, path.endPosition, eased) && target == Lerp3(path.startTarget, path.endTarget, eased)
      ensures isAnimating == old(isAnimating) && currentAnimationId == old(currentAnimationId) && path == old(path)
      ensures lastManualPosition == old(lastManualPosition) && lastManualTarget == old(lastManualTarget)
      ensures listening == old(listening)
    {
      if !isAnimating {
        return;
      }
      position := Lerp3(path.startPosition, path.endPosition, eased);
      target := Lerp3(path.startTarget, path.endTarget, eased);
    }

    /** The tween's `onComplete` callback: clears the animating flag and the key. */
    method FrameComplete()
      requires Valid()
      modifies this
      ensures Valid()
      ensures !isAnimating && currentAnimationId == None
      ensures position == old(position) && target == old(target) && path == old(path)
      ensures lastManualPosition == old(lastManualPosition) && lastManualTarget == old(lastManualTarget)
      ensures listening == old(listening)
    {
      isAnimating := false;
      currentAnimationId := None;
    }

    function IsCurrentlyAnimating(): (b: bool)
      reads this, animator
      requires Valid()
      ensures b <==> currentAnimationId.Some?
    {
      isAnimating
    }

    function GetManualPosition(): (pose: (Vec3, Vec3))
      reads this
      ensures pose == (lastManualPosition, lastManualTarget)
    {
      (lastManualPosition, lastManualTarget)
    }

    method SetManualPosition(p: Vec3, t: Vec3)
      requires Valid()
      modifies this
      ensures Valid()
      ensures lastManualPosition == p && lastManualTarget == t
      ensures isAnimating == old(isAnimating) && currentAnimationId == old(currentAnimationId)
      ensures position == old(position) && target == old(target) && path == old(path)
      ensures listening == old(listening)
    {
      lastManualPosition := p;
      lastManualTarget := t;
    }

    /** `dispose`: stops listening to the controls and stops any animation. */
    method Dispose()
      requires Valid()
      modifies this, animator
      ensures Valid()
      ensures !listening && !isAnimating && currentAnimationId == None
      ensures animator.entries == AfterStop(old(animator.entries), old(isAnimating), old(currentAnimationId))
      ensures animator.isRunning == old(animator.isRunning)
      ensures lastManualPosition == old(lastManualPosition) && lastManualTarget == old(lastManualTarget)
      ensures position == old(position) && target == old(target) && path == old(path)
    {
      listening := false;
      StopAnimation();
    }
  }
}
