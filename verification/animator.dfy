/**
 * The keyed animation scheduler of `src/scene/Animation.ts` and its copy in
 * `src/utils/animationUtils.ts`: named easing curves, an `OptimizedAnimator` holding one
 * tween per id in a JavaScript `Map`, and the per-frame pass that advances, completes and
 * removes tweens.
 *
 * Frame timestamps are explicit `now` parameters. A tween's `update` and `onComplete`
 * callbacks are not run here: a frame returns the calls it makes, in order, as events, and
 * `requestAnimationFrame` is the `requested` result of the methods that would call it.
 */
module Animator {
  import opened Wrappers
  import opened Vectors

  // ---------------------------------------------------------------------------------------
  // Easing curves
  // ---------------------------------------------------------------------------------------

  /** The easing curves the two scheduler files define. */
  datatype Easing = InOutBalanced | OutCubic | InOutCubic | OutQuart | InOutQuart | Linear

  function Cube(x: real): real { x * x * x }
  function Fourth(x: real): real { x * x * x * x }

  /** The curve value at `t`; `InOutBalanced` is `2t²` below one half, `1 - 2(1 - t)²` above. */
  function Ease(e: Easing, t: real): real
  {
    match e
    case InOutBalanced =>
      if t < 0.5 then 2.0 * t * t
      else var u := 2.0 * t - 2.0; 1.0 - 0.5 * u * u
    case OutCubic => 1.0 - Cube(1.0 - t)
    case InOutCubic =>
      if t < 0.5 then 4.0 * Cube(t) else 1.0 - Cube(-2.0 * t + 2.0) / 2.0
    case OutQuart => 1.0 - Fourth(1.0 - t)
    case InOutQuart =>
      if t < 0.5 then 8.0 * Fourth(t) else 1.0 - Fourth(-2.0 * t + 2.0) / 2.0
    case Linear => t
  }

  /** Every curve starts at 0 and ends at 1. */
  lemma EasingEndpoints(e: Easing)
    ensures Ease(e, 0.0) == 0.0
    ensures Ease(e, 1.0) == 1.0
  {
  }

  /** The in-out curves pass through the middle: `f(1/2) = 1/2`. */
  lemma InOutMidpoint(e: Easing)
    requires e == InOutBalanced || e == InOutCubic || e == InOutQuart
    ensures Ease(e, 0.5) == 0.5
  {
  }

  /** `InOutBalanced` is point-symmetric about the middle: `f(1 - t) = 1 - f(t)`. */
  lemma BalancedMirror(t: real)
    requires 0.0 <= t <= 1.0
    ensures Ease(InOutBalanced, 1.0 - t) == 1.0 - Ease(InOutBalanced, t)
  {
    if t < 0.5 {
      var u := 2.0 * (1.0 - t) - 2.0;
      assert u == -2.0 * t;
      assert 0.5 * u * u == 2.0 * t * t;
    } else if t > 0.5 {
      var u := 2.0 * t - 2.0;
      assert u == -2.0 * (1.0 - t);
      assert 0.5 * u * u == 2.0 * (1.0 - t) * (1.0 - t);
    }
  }

  /** The in-out cubic curve has the same symmetry. */
  lemma InOutCubicMirror(t: real)
    requires 0.0 <= t <= 1.0
    ensures Ease(InOutCubic, 1.0 - t) == 1.0 - Ease(InOutCubic, t)
  {
    if t < 0.5 {
      assert -2.0 * (1.0 - t) + 2.0 == 2.0 * t;
      CubeDouble(t);
    } else if t > 0.5 {
      assert -2.0 * t + 2.0 == 2.0 * (1.0 - t);
      CubeDouble(1.0 - t);
    }
  }

  lemma CubeDouble(x: real)
    ensures Cube(2.0 * x) == 8.0 * Cube(x)
  {
    assert (2.0 * x) * (2.0 * x) == 4.0 * (x * x);
    assert (4.0 * (x * x)) * (2.0 * x) == 8.0 * (x * x * x);
  }

  lemma SquareBelowOne(x: real)
    requires 0.0 <= x <= 1.0
    ensures 0.0 <= x * x <= x
  {
    assert x * x <= x * 1.0;
  }

  /** On `[0, 1]` the balanced curve stays in `[0, 1]`, at or below one half exactly on the first half. */
  lemma BalancedInUnit(t: real)
    requires 0.0 <= t <= 1.0
    ensures 0.0 <= Ease(InOutBalanced, t) <= 1.0
    ensures Ease(InOutBalanced, t) < 0.5 <==> t < 0.5
  {
    if t < 0.5 {
      var v := 2.0 * t;
      SquareBelowOne(v);
      assert v * v < 1.0;
      assert Ease(InOutBalanced, t) == 0.5 * (v * v);
    } else {
      var w := 2.0 - 2.0 * t;
      SquareBelowOne(w);
      assert (2.0 * t - 2.0) * (2.0 * t - 2.0) == w * w;
      assert Ease(InOutBalanced, t) == 1.0 - 0.5 * (w * w);
    }
  }

  // ---------------------------------------------------------------------------------------
  // Tweens and the ordered map that holds them
  // ---------------------------------------------------------------------------------------

  /** One scheduled tween: `startTime` is the clock reading when it was stored. */
  datatype Entry = Entry(id: string, startTime: real, duration: real, easing: Easing, hasOnComplete: bool)

  /** The calls a frame makes: `update(eased, progress)` and `onComplete()` of the tween `id`. */
  datatype Event = Updated(id: string, eased: real, progress: real) | Completed(id: string)

  /** `Math.min(elapsed / duration, 1)`: clamped above only. */
  function Progress(a: Entry, now: real): real
    requires a.duration > 0.0
  {
    var p := (now - a.startTime) / a.duration;
    if p < 1.0 then p else 1.0
  }

  predicate Finished(a: Entry, now: real)
    requires a.duration > 0.0
  {
    Progress(a, now) >= 1.0
  }

  /** Progress never exceeds 1, is non-negative once the clock has reached the start, and reaches 1 exactly when the duration has elapsed. */
  lemma ProgressBounds(a: Entry, now: real)
    requires a.duration > 0.0
    ensures Progress(a, now) <= 1.0
    ensures now >= a.startTime ==> Progress(a, now) >= 0.0
    ensures Finished(a, now) <==> now - a.startTime >= a.duration
  {
    var p := (now - a.startTime) / a.duration;
    assert p * a.duration == now - a.startTime;
    if now - a.startTime >= a.duration {
      assert p >= 1.0;
    }
  }

  predicate HasKey(es: seq<Entry>, id: string)
  {
    exists i :: 0 <= i < |es| && es[i].id == id
  }

  predicate DistinctIds(es: seq<Entry>)
  {
    forall i, j :: 0 <= i < j < |es| ==> es[i].id != es[j].id
  }

  predicate PositiveDurations(es: seq<Entry>)
  {
    forall i :: 0 <= i < |es| ==> es[i].duration > 0.0
  }

  /** The dictionary a sequence of entries stands for: each id bound to its entry. */
  function AsMap(es: seq<Entry>): map<string, Entry>
  {
    if |es| == 0 then map[] else AsMap(es[..|es| - 1])[es[|es| - 1].id := es[|es| - 1]]
  }

  /** An id is a key of a non-empty sequence exactly when it is a key of all but the last entry, or the last entry's id. */
  lemma HasKeyInit(es: seq<Entry>, id: string)
    requires |es| > 0
    ensures HasKey(es, id) <==> HasKey(es[..|es| - 1], id) || es[|es| - 1].id == id
  {
    var init := es[..|es| - 1];
    if HasKey(es, id) {
      var i :| 0 <= i < |es| && es[i].id == id;
      if i < |es| - 1 {
        assert init[i].id == id;
      }
    }
    if HasKey(init, id) {
      var i :| 0 <= i < |init| && init[i].id == id;
      assert es[i].id == id;
    }
  }

  /** With distinct ids, the last id is not a key of the entries before it. */
  lemma LastIdIsNew(es: seq<Entry>)
    requires DistinctIds(es) && |es| > 0
    ensures DistinctIds(es[..|es| - 1])
    ensures !HasKey(es[..|es| - 1], es[|es| - 1].id)
  {
    var init := es[..|es| - 1];
    forall i | 0 <= i < |init|
      ensures init[i].id != es[|es| - 1].id
    {
      assert init[i] == es[i];
    }
  }

  /** The keys of the dictionary are the ids of the entries, and each id maps to its own entry. */
  lemma {:induction false} AsMapKeys(es: seq<Entry>)
    requires DistinctIds(es)
    ensures forall id :: id in AsMap(es) <==> HasKey(es, id)
    ensures forall i :: 0 <= i < |es| ==> es[i].id in AsMap(es) && AsMap(es)[es[i].id] == es[i]
  {
    if |es| > 0 {
      var init := es[..|es| - 1];
      LastIdIsNew(es);
      AsMapKeys(init);
      forall id
        ensures id in AsMap(es) <==> HasKey(es, id)
      {
        HasKeyInit(es, id);
      }
      forall i | 0 <= i < |es| - 1
        ensures es[i].id in AsMap(es) && AsMap(es)[es[i].id] == es[i]
      {
        assert init[i] == es[i];
      }
    }
  }

  /** A dictionary whose keys are the ids of `es` and which maps each id to its entry is `AsMap(es)`. */
  lemma MapFromEntries(es: seq<Entry>, m: map<string, Entry>)
    requires DistinctIds(es)
    requires forall id :: id in m <==> HasKey(es, id)
    requires forall i :: 0 <= i < |es| ==> es[i].id in m && m[es[i].id] == es[i]
    ensures m == AsMap(es)
  {
    var a := AsMap(es);
    AsMapKeys(es);
    forall id | id in m
      ensures id in a && m[id] == a[id]
    {
      var i :| 0 <= i < |es| && es[i].id == id;
    }
    forall id | id in a
      ensures id in m
    {
    }
  }

  /** `Map.set(e.id, e)`: replaces the entry with that id where it stands, or appends. */
  function Set(es: seq<Entry>, e: Entry): (r: seq<Entry>)
    ensures |r| == if HasKey(es, e.id) then |es| else |es| + 1
  {
    if HasKey(es, e.id) then
      seq(|es|, i requires 0 <= i < |es| => if es[i].id == e.id then e else es[i])
    else es + [e]
  }

  /** The entries whose id is not in `drop`, in their original order. */
  function WithoutIds(es: seq<Entry>, drop: set<string>): (r: seq<Entry>)
    ensures |r| <= |es|
  {
    if |es| == 0 then []
    else
      var last := es[|es| - 1];
      WithoutIds(es[..|es| - 1], drop) + (if last.id in drop then [] else [last])
  }

  /** `Map.delete(id)`. */
  function Delete(es: seq<Entry>, id: string): seq<Entry>
  {
    WithoutIds(es, {id})
  }

  /** A filtered sequence holds exactly the entries whose id was not dropped, and keeps the rest of the structure. */
  lemma {:induction false} WithoutIdsMembers(es: seq<Entry>, drop: set<string>)
    ensures forall x :: x in WithoutIds(es, drop) <==> x in es && x.id !in drop
  {
    if |es| > 0 {
      var init := es[..|es| - 1];
      WithoutIdsMembers(init, drop);
      assert es == init + [es[|es| - 1]];
    }
  }

  /** Filtering keeps the ids distinct and the durations positive. */
  lemma {:induction false} WithoutIdsKeepsValid(es: seq<Entry>, drop: set<string>)
    requires DistinctIds(es)
    ensures DistinctIds(WithoutIds(es, drop))
    ensures PositiveDurations(es) ==> PositiveDurations(WithoutIds(es, drop))
  {
    WithoutIdsMembers(es, drop);
    if |es| > 0 {
      var init := es[..|es| - 1];
      var last := es[|es| - 1];
      LastIdIsNew(es);
      WithoutIdsKeepsValid(init, drop);
      WithoutIdsMembers(init, drop);
      forall x | x in WithoutIds(init, drop)
        ensures x.id != last.id
      {
        var k :| 0 <= k < |init| && init[k] == x;
      }
    }
  }

  /** Dropping two sets of ids one after the other drops their union. */
  lemma {:induction false} WithoutIdsTwice(es: seq<Entry>, a: set<string>, b: set<string>)
    ensures WithoutIds(WithoutIds(es, a), b) == WithoutIds(es, a + b)
  {
    if |es| > 0 {
      var init := es[..|es| - 1];
      var last := es[|es| - 1];
      WithoutIdsTwice(init, a, b);
      var once := WithoutIds(es, a);
      if last.id !in a {
        assert once[..|once| - 1] == WithoutIds(init, a);
      } else {
        assert once == WithoutIds(init, a);
        if |once| > 0 {
          // a non-empty `once` ends with an entry of `init`, which is kept by `WithoutIds(init, a)`
          assert WithoutIds(once, b) == WithoutIds(init, a + b) by {
            WithoutIdsTwice(init, a, b);
          }
        }
      }
    }
  }

  /** Dropping ids that no entry carries changes nothing. */
  lemma {:induction false} WithoutAbsentIds(es: seq<Entry>, drop: set<string>, extra: string)
    requires !HasKey(es, extra)
    ensures WithoutIds(es, drop + {extra}) == WithoutIds(es, drop)
  {
    if |es| > 0 {
      HasKeyInit(es, extra);
      WithoutAbsentIds(es[..|es| - 1], drop, extra);
    }
  }

  /** Dropping no id keeps every entry. */
  lemma {:induction false} WithoutNothing(es: seq<Entry>)
    ensures WithoutIds(es, {}) == es
  {
    if |es| > 0 {
      WithoutNothing(es[..|es| - 1]);
    }
  }

  /** Storing under a new id appends the entry and extends the dictionary. */
  lemma SetNewKey(es: seq<Entry>, e: Entry)
    requires DistinctIds(es) && !HasKey(es, e.id)
    ensures DistinctIds(es + [e])
    ensures AsMap(es + [e]) == AsMap(es)[e.id := e]
  {
    var r := es + [e];
    assert r[..|r| - 1] == es;
    forall i | 0 <= i < |es|
      ensures r[i].id != e.id
    {
      assert r[i] == es[i];
    }
  }

  /** Storing under an existing id replaces that entry in place: every position keeps its id. */
  lemma SetExistingKey(es: seq<Entry>, e: Entry)
    requires DistinctIds(es) && HasKey(es, e.id)
    ensures |Set(es, e)| == |es|
    ensures forall i :: 0 <= i < |es| ==> Set(es, e)[i].id == es[i].id
    ensures DistinctIds(Set(es, e))
    ensures AsMap(Set(es, e)) == AsMap(es)[e.id := e]
  {
    var r := Set(es, e);
    var m := AsMap(es)[e.id := e];
    AsMapKeys(es);
    assert forall i :: 0 <= i < |es| ==> r[i].id == es[i].id;
    forall id
      ensures id in m <==> HasKey(r, id)
    {
      if HasKey(r, id) {
        var i :| 0 <= i < |r| && r[i].id == id;
        assert es[i].id == id;
      }
      if HasKey(es, id) {
        var i :| 0 <= i < |es| && es[i].id == id;
        assert r[i].id == id;
      }
    }
    MapFromEntries(r, m);
  }

  /** Storing an entry updates the dictionary at its id and keeps the ids distinct and the durations positive. */
  lemma SetIsMapUpdate(es: seq<Entry>, e: Entry)
    requires DistinctIds(es)
    ensures DistinctIds(Set(es, e))
    ensures PositiveDurations(es) && e.duration > 0.0 ==> PositiveDurations(Set(es, e))
    ensures AsMap(Set(es, e)) == AsMap(es)[e.id := e]
    ensures HasKey(es, e.id) ==> forall i :: 0 <= i < |es| ==> Set(es, e)[i].id == es[i].id
    ensures !HasKey(es, e.id) ==> Set(es, e) == es + [e]
  {
    if HasKey(es, e.id) {
      SetExistingKey(es, e);
    } else {
      SetNewKey(es, e);
    }
  }

  /** Deleting an id removes exactly that key from the dictionary. */
  lemma DeleteIsMapRemoval(es: seq<Entry>, id: string)
    requires DistinctIds(es)
    ensures DistinctIds(Delete(es, id))
    ensures AsMap(Delete(es, id)) == AsMap(es) - {id}
    ensures !HasKey(Delete(es, id), id)
    ensures |Delete(es, id)| == if HasKey(es, id) then |es| - 1 else |es|
  {
    var r := Delete(es, id);
    var m := AsMap(es) - {id};
    WithoutIdsMembers(es, {id});
    WithoutIdsKeepsValid(es, {id});
    AsMapKeys(es);
    forall k
      ensures k in m <==> HasKey(r, k)
    {
      if HasKey(r, k) {
        var i :| 0 <= i < |r| && r[i].id == k;
        assert r[i] in es;
        var j :| 0 <= j < |es| && es[j] == r[i];
      }
      if HasKey(es, k) && k != id {
        var j :| 0 <= j < |es| && es[j].id == k;
        assert es[j] in r;
        var i :| 0 <= i < |r| && r[i] == es[j];
      }
    }
    forall i | 0 <= i < |r|
      ensures r[i].id in m && m[r[i].id] == r[i]
    {
      assert r[i] in es;
      var j :| 0 <= j < |es| && es[j] == r[i];
    }
    MapFromEntries(r, m);
    DeleteCount(es, id);
  }

  lemma {:induction false} DeleteCount(es: seq<Entry>, id: string)
    requires DistinctIds(es)
    ensures |Delete(es, id)| == if HasKey(es, id) then |es| - 1 else |es|
  {
    if |es| > 0 {
      LastIdIsNew(es);
      HasKeyInit(es, id);
      DeleteCount(es[..|es| - 1], id);
    }
  }

  // ---------------------------------------------------------------------------------------
  // One frame of the scheduler
  // ---------------------------------------------------------------------------------------

  /** The calls made for one tween: its update, then its `onComplete` when it finished and has one. */
  function Steps(a: Entry, now: real): seq<Event>
    requires a.duration > 0.0
  {
    var p := Progress(a, now);
    [Updated(a.id, Ease(a.easing, p), p)] + (if p >= 1.0 && a.hasOnComplete then [Completed(a.id)] else [])
  }

  /** The calls a frame makes, tween by tween in insertion order. */
  function FrameEvents(es: seq<Entry>, now: real): seq<Event>
    requires PositiveDurations(es)
  {
    if |es| == 0 then []
    else FrameEvents(es[..|es| - 1], now) + Steps(es[|es| - 1], now)
  }

  /** `completedAnimations`: the ids of the tweens that reached progress 1, in insertion order. */
  function FinishedIds(es: seq<Entry>, now: real): seq<string>
    requires PositiveDurations(es)
  {
    if |es| == 0 then []
    else FinishedIds(es[..|es| - 1], now) + (if Finished(es[|es| - 1], now) then [es[|es| - 1].id] else [])
  }

  /** The tweens still running after the frame, in insertion order. */
  function Remaining(es: seq<Entry>, now: real): (r: seq<Entry>)
    requires PositiveDurations(es)
    ensures forall x :: x in r ==> x in es
  {
    if |es| == 0 then []
    else Remaining(es[..|es| - 1], now) + (if Finished(es[|es| - 1], now) then [] else [es[|es| - 1]])
  }

  function Elems(s: seq<string>): set<string>
  {
    set x | x in s
  }

  /** A surviving tween is one that has not finished: exactly the entries of `es` with progress below 1. */
  lemma {:induction false} RemainingAreUnfinished(es: seq<Entry>, now: real)
    requires PositiveDurations(es)
    ensures forall x :: x in Remaining(es, now) <==> x in es && !Finished(x, now)
  {
    if |es| > 0 {
      var init := es[..|es| - 1];
      assert es == init + [es[|es| - 1]];
      RemainingAreUnfinished(init, now);
    }
  }

  /** With distinct ids, deleting the finished ids after the pass leaves exactly the unfinished tweens. */
  lemma {:induction false} DeletingFinishedLeavesRemaining(es: seq<Entry>, now: real)
    requires PositiveDurations(es) && DistinctIds(es)
    ensures WithoutIds(es, Elems(FinishedIds(es, now))) == Remaining(es, now)
  {
    if |es| > 0 {
      var init := es[..|es| - 1];
      var last := es[|es| - 1];
      LastIdIsNew(es);
      DeletingFinishedLeavesRemaining(init, now);
      FinishedIdsAreKeys(init, now);
      var d := Elems(FinishedIds(init, now));
      assert last.id !in d;
      assert es[..|es| - 1] == init;
      if Finished(last, now) {
        assert Elems(FinishedIds(es, now)) == d + {last.id};
        WithoutAbsentIds(init, d, last.id);
      } else {
        assert Elems(FinishedIds(es, now)) == d;
      }
    }
  }

  lemma {:induction false} FinishedIdsAreKeys(es: seq<Entry>, now: real)
    requires PositiveDurations(es)
    ensures forall id :: id in FinishedIds(es, now) ==> HasKey(es, id)
  {
    if |es| > 0 {
      var init := es[..|es| - 1];
      FinishedIdsAreKeys(init, now);
      forall id | id in FinishedIds(es, now)
        ensures HasKey(es, id)
      {
        if id in FinishedIds(init, now) {
          var i :| 0 <= i < |init| && init[i].id == id;
          assert es[i].id == id;
        } else {
          assert es[|es| - 1].id == id;
        }
      }
    }
  }

  /** Every update a frame makes carries a progress of at most 1, and every completion belongs to a finished tween with an `onComplete`. */
  lemma {:induction false} FrameEventsBounded(es: seq<Entry>, now: real)
    requires PositiveDurations(es)
    ensures forall ev :: ev in FrameEvents(es, now) && ev.Updated? ==> ev.progress <= 1.0
    ensures forall ev :: ev in FrameEvents(es, now) && ev.Completed? ==>
      exists a :: a in es && a.id == ev.id && Finished(a, now) && a.hasOnComplete
  {
    if |es| > 0 {
      var init := es[..|es| - 1];
      var last := es[|es| - 1];
      FrameEventsBounded(init, now);
      ProgressBounds(last, now);
      forall ev | ev in FrameEvents(es, now) && ev.Completed?
        ensures exists a :: a in es && a.id == ev.id && Finished(a, now) && a.hasOnComplete
      {
        if ev in FrameEvents(init, now) {
          var a :| a in init && a.id == ev.id && Finished(a, now) && a.hasOnComplete;
          assert a in es;
        } else {
          assert last in es;
        }
      }
    }
  }

  // ---------------------------------------------------------------------------------------
  // The scheduler object
  // ---------------------------------------------------------------------------------------

  /** The default easing of `src/scene/Animation.ts`. */
  const SceneDefaultEasing := InOutBalanced
  /** The default easing of `src/utils/animationUtils.ts`. */
  const UtilsDefaultEasing := OutCubic

  class OptimizedAnimator {
    /**
     * The easing used when `animate` is given none. The two scheduler files also differ in that
     * only `src/utils/animationUtils.ts` has `stopAll`, `isAnimating` and `hasActiveAnimations`.
     */
    const defaultEasing: Easing
    /** The `animations` map, as its entries in insertion order. */
    var entries: seq<Entry>
    var isRunning: bool

    /** Ids are distinct, durations positive, and a non-empty map always has a frame loop running. */
    ghost predicate Valid()
      reads this
    {
      DistinctIds(entries) && PositiveDurations(entries) && (|entries| > 0 ==> isRunning)
    }

    constructor(defaultEasing: Easing)
      ensures Valid()
      ensures this.defaultEasing == defaultEasing && entries == [] && !isRunning
    {
      this.defaultEasing := defaultEasing;
      entries := [];
      isRunning := false;
    }

    /** `animate`: stores the tween under `id`, replacing an earlier one, and starts the loop if idle. */
    method Animate(id: string, duration: real, easing: Option<Easing>, hasOnComplete: bool, now: real)
      returns (r: string, requested: bool)
      requires Valid() && duration > 0.0
      modifies this
      ensures Valid()
      ensures r == id
      ensures entries == Set(old(entries),
        Entry(id, now, duration, if easing.Some? then easing.value else defaultEasing, hasOnComplete))
      ensures isRunning && requested == !old(isRunning)
    {
      var chosen := if easing.Some? then easing.value else defaultEasing;
      var e := Entry(id, now, duration, chosen, hasOnComplete);
      SetIsMapUpdate(entries, e);
      entries := Set(entries, e);
      requested := false;
      if !isRunning {
        requested := Start();
      }
      r := id;
    }

    /** `stop`: deletes the tween without completing it and reports whether it was there. */
    method Stop(id: string) returns (existed: bool)
      requires Valid()
      modifies this
      ensures Valid()
      ensures existed == HasKey(old(entries), id)
      ensures entries == Delete(old(entries), id) && isRunning == old(isRunning)
    {
      existed := HasKey(entries, id);
      DeleteIsMapRemoval(entries, id);
      WithoutIdsKeepsValid(entries, {id});
      entries := Delete(entries, id);
    }

    /** `stopAll` of the utils scheduler (the scene scheduler has none): empties the map and clears the running flag. */
    method StopAll()
      requires Valid()
      modifies this
      ensures Valid()
      ensures entries == [] && !isRunning
    {
      entries := [];
      isRunning := false;
    }

    /** `start`: requests a frame only when idle with work to do. */
    method Start() returns (requested: bool)
      modifies this
      ensures requested == (!old(isRunning) && |entries| > 0)
      ensures entries == old(entries) && isRunning == (old(isRunning) || |entries| > 0)
    {
      requested := false;
      if !isRunning && |entries| > 0 {
        isRunning := true;
        requested := true;
      }
    }

    /**
     * `update(now)`: one frame. Each tween in insertion order gets its update call, and its
     * completion call right after when it finished; the finished ids are then deleted, and a
     * new frame is requested exactly when tweens remain.
     */
    method Update(now: real) returns (fired: seq<Event>, requested: bool)
      requires Valid()
      modifies this
      ensures Valid()
      ensures old(entries) == [] ==> fired == [] && entries == []
      ensures fired == FrameEvents(old(entries), now)
      ensures entries == Remaining(old(entries), now)
      ensures requested == (|entries| > 0) && isRunning == (|entries| > 0)
    {
      if |entries| == 0 {
        isRunning := false;
        return [], false;
      }
      var pass := entries;
      var completed;
      fired, completed := AdvanceAll(pass, now);
      DeleteIds(completed);
      DeletingFinishedLeavesRemaining(pass, now);
      RemainingAreUnfinished(pass, now);
      RemainingKeepsValid(pass, now);
      if |entries| > 0 {
        requested := true;
      } else {
        isRunning := false;
        requested := false;
      }
    }

    /** The deletion loop at the end of `update`: removes each listed id in turn. */
    method DeleteIds(ids: seq<string>)
      modifies this
      ensures entries == WithoutIds(old(entries), Elems(ids)) && isRunning == old(isRunning)
    {
      ghost var start := entries;
      var j := 0;
      DeleteStep(start, ids, 0);
      while j < |ids|
        invariant 0 <= j <= |ids|
        invariant entries == WithoutIds(start, Elems(ids[..j]))
        invariant isRunning == old(isRunning)
      {
        DeleteStep(start, ids, j);
        entries := Delete(entries, ids[j]);
        j := j + 1;
      }
      assert ids[..j] == ids;
    }

    /** `isAnimating(id)` of the utils scheduler: whether a tween is stored under `id`. */
    function IsAnimating(id: string): (b: bool)
      reads this
      requires Valid()
      ensures b <==> id in AsMap(entries)
    {
      AsMapKeys(entries);
      HasKey(entries, id)
    }

    /** `hasActiveAnimations()` of the utils scheduler: whether the map is non-empty. */
    function HasActiveAnimations(): (b: bool)
      reads this
      requires Valid()
      ensures b <==> AsMap(entries) != map[]
    {
      AsMapKeys(entries);
      if |entries| > 0 then assert entries[0].id in AsMap(entries); true else false
    }
  }

  /**
   * The pass over the map in `update`: each tween's update call, and its completion call
   * right after it when it finished, with the finished ids collected in order.
   */
  method AdvanceAll(pass: seq<Entry>, now: real) returns (fired: seq<Event>, completed: seq<string>)
    requires PositiveDurations(pass)
    ensures fired == FrameEvents(pass, now)
    ensures completed == FinishedIds(pass, now)
  {
    fired := [];
    completed := [];
    var i := 0;
    while i < |pass|
      invariant 0 <= i <= |pass|
      invariant fired == FrameEvents(pass[..i], now)
      invariant completed == FinishedIds(pass[..i], now)
    {
      var a := pass[i];
      var elapsed := now - a.startTime;
      var progress := if elapsed / a.duration < 1.0 then elapsed / a.duration else 1.0;
      fired := fired + [Updated(a.id, Ease(a.easing, progress), progress)];
      if progress >= 1.0 {
        completed := completed + [a.id];
        if a.hasOnComplete {
          fired := fired + [Completed(a.id)];
        }
      }
      assert pass[..i + 1][..i] == pass[..i];
      i := i + 1;
    }
    assert pass[..i] == pass;
  }

  /** Deleting the ids of a list one by one: no id deletes nothing, and each further id extends the set dropped so far. */
  lemma DeleteStep(es: seq<Entry>, ids: seq<string>, j: nat)
    requires j <= |ids|
    ensures j == 0 ==> WithoutIds(es, Elems(ids[..0])) == es
    ensures j < |ids| ==> Delete(WithoutIds(es, Elems(ids[..j])), ids[j]) == WithoutIds(es, Elems(ids[..j + 1]))
  {
    if j == 0 {
      assert Elems(ids[..0]) == {};
      WithoutNothing(es);
    }
    if j < |ids| {
      WithoutIdsTwice(es, Elems(ids[..j]), {ids[j]});
      assert ids[..j + 1] == ids[..j] + [ids[j]];
      assert Elems(ids[..j + 1]) == Elems(ids[..j]) + {ids[j]};
    }
  }

  /** The surviving tweens keep distinct ids and positive durations. */
  lemma {:induction false} RemainingKeepsValid(es: seq<Entry>, now: real)
    requires PositiveDurations(es) && DistinctIds(es)
    ensures PositiveDurations(Remaining(es, now)) && DistinctIds(Remaining(es, now))
  {
    DeletingFinishedLeavesRemaining(es, now);
    WithoutIdsKeepsValid(es, Elems(FinishedIds(es, now)));
  }

  // ---------------------------------------------------------------------------------------
  // Vector interpolation
  // ---------------------------------------------------------------------------------------

  /** A mutable three.js `Vector3`. */
  class Vector3 {
    var x: real
    var y: real
    var z: real

    function Value(): Vec3
      reads this
    {
      Vec3(x, y, z)
    }

    constructor(v: Vec3)
      ensures Value() == v
    {
      x, y, z := v.x, v.y, v.z;
    }
  }

  /**
   * `lerpVector3`: writes `start + (end - start) * t` into `target`, component by component.
   * Each component reads its own inputs before it is written, so the result is the same
   * when `target` is `start` or `end` itself.
   */
  method LerpVector3(start: Vector3, end: Vector3, t: real, target: Vector3)
    modifies target
    ensures target.Value() == Lerp3(old(start.Value()), old(end.Value()), t)
  {
    target.x := start.x + (end.x - start.x) * t;
    target.y := start.y + (end.y - start.y) * t;
    target.z := start.z + (end.z - start.z) * t;
  }

  // ---------------------------------------------------------------------------------------
  // createCameraAnimation
  // ---------------------------------------------------------------------------------------

  const DefaultCameraDuration := 1500.0

  /** The tween `createCameraAnimation` builds: its duration and the two poses it runs between. */
  datatype CameraTween = CameraTween(duration: real, startPosition: Vec3, endPosition: Vec3,
                                     startTarget: Vec3, endTarget: Vec3)

  /** The camera position and orbit target the tween's `update` writes for a progress value. */
  function TweenPose(tw: CameraTween, progress: real): (pose: (Vec3, Vec3))
    ensures progress == 0.0 ==> pose == (tw.startPosition, tw.startTarget)
    ensures progress == 1.0 ==> pose == (tw.endPosition, tw.endTarget)
  {
    LerpEndpoints(tw.startPosition, tw.endPosition);
    LerpEndpoints(tw.startTarget, tw.endTarget);
    (Lerp3(tw.startPosition, tw.endPosition, progress), Lerp3(tw.startTarget, tw.endTarget, progress))
  }

  /** `createCameraAnimation`, with the duration defaulting to 1500 ms. */
  function CreateCameraAnimation(startPosition: Vec3, endPosition: Vec3, startTarget: Vec3,
                                 endTarget: Vec3, duration: Option<real>): (tw: CameraTween)
    ensures tw.duration == if duration.Some? then duration.value else DefaultCameraDuration
    ensures TweenPose(tw, 0.0) == (startPosition, startTarget)
    ensures TweenPose(tw, 1.0) == (endPosition, endTarget)
  {
    CameraTween(if duration.Some? then duration.value else DefaultCameraDuration,
                startPosition, endPosition, startTarget, endTarget)
  }
}
