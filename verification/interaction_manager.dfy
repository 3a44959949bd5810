/**
 * Mouse routing on the liver surface (`InteractionManager.ts`): telling a click from a
 * drag, suppressing clicks while the orbit controls pan or rotate, and routing hover and
 * click to the region under the mouse.
 *
 * The raycast against the liver mesh is an input (`Pick`), the region lookup and the
 * hovered uniform are the liver model's own, and each callback the manager invokes is
 * returned as an `Event`, in call order.
 */
module InteractionManager {
  import opened Wrappers
  import opened Vectors
  import opened LiverData
  import Segmentation

  /** The nearest raycast hit on the liver: no mesh to cast against, no hit, or a hit with or without a UV. */
  datatype Pick = NoMesh | Miss | OnMesh(uv: Option<Vec2>)

  /** A callback invocation: `onInscriptionClick(id)`, `onBackgroundClick()`, `onMarkerHover(inscription)`, and the two control callbacks. */
  datatype Event =
    | InscriptionClick(id: int)
    | BackgroundClick
    | MarkerHover(inscription: Option<Inscription>)
    | InteractionStart
    | InteractionEnd

  /** The canvas cursor style the manager sets. */
  datatype Cursor = DefaultCursor | PointerCursor | GrabCursor

  /** A client position in pixels. */
  datatype Point = Point(x: real, y: real)

  /** Pixels the mouse may travel, along either axis, before a press becomes a drag. */
  const MoveThreshold: real := 5.0

  function Abs(r: real): real { if r < 0.0 then -r else r }

  /** `|dx| > 5 || |dy| > 5` from the recorded press; false when no press is recorded. */
  predicate MovedPast(down: Option<Point>, p: Point)
  {
    down.Some? && (Abs(p.x - down.value.x) > MoveThreshold || Abs(p.y - down.value.y) > MoveThreshold)
  }

  /** The test is per axis: a diagonal move of 4 pixels on each axis, more than 5 pixels long, is not a drag. */
  lemma MovementIsPerAxis()
    ensures var down := Point(0.0, 0.0);
      var p := Point(4.0, 4.0);
      !MovedPast(Some(down), p) && p.x * p.x + p.y * p.y > MoveThreshold * MoveThreshold
  {
  }

  /** `liverInscriptions.find(ins => ins.id === id)`. */
  function FindInscription(inscriptions: seq<Inscription>, id: int): (r: Option<Inscription>)
    ensures r.Some? ==> r.value in inscriptions && r.value.id == id
    ensures r.None? <==> forall i :: 0 <= i < |inscriptions| ==> inscriptions[i].id != id
  {
    if |inscriptions| == 0 then None
    else if inscriptions[0].id == id then Some(inscriptions[0])
    else FindInscription(inscriptions[1..], id)
  }

  /** Every id 1..40 finds its inscription in the liver's inscription list. */
  lemma {:induction false} EveryRegionHasInscription(id: int)
    requires IsInscriptionId(id)
    ensures FindInscription(LiverInscriptions, id) == Some(Inscription(id, GroupOf(id)))
  {
    InscriptionsCoverIds();
    assert LiverInscriptions[id - 1].id == id;
    var r := FindInscription(LiverInscriptions, id);
    assert r.Some?;
    assert forall ins | ins in LiverInscriptions && ins.id == id :: ins == Inscription(id, GroupOf(id));
  }

  /** What a hover does to the hovered uniform, the callbacks and the cursor (none when it is left alone). */
  datatype HoverOutcome = HoverOutcome(uniform: int, fired: seq<Event>, cursor: Option<Cursor>)

  /**
   * The hover routing for a pick on an existing mesh, `region` being the lookup at the hit's
   * UV: a region 1..40 is hovered, and its inscription, when found, is reported with a
   * pointer cursor; anything else clears the hover with a null report and a grab cursor.
   */
  function HoverRoute(pick: Pick, region: int, inscriptions: seq<Inscription>): (o: HoverOutcome)
    requires !pick.NoMesh?
    ensures pick.OnMesh? && pick.uv.Some? && IsInscriptionId(region) ==>
      o.uniform == region &&
      match FindInscription(inscriptions, region)
      case Some(ins) => o.fired == [MarkerHover(Some(ins))] && o.cursor == Some(PointerCursor)
      case None => o.fired == [] && o.cursor.None?
    ensures !(pick.OnMesh? && pick.uv.Some? && IsInscriptionId(region)) ==>
      o.uniform == 0 && o.fired == [MarkerHover(None)] && o.cursor == Some(GrabCursor)
  {
    if pick.OnMesh? && pick.uv.Some? && IsInscriptionId(region) then
      match FindInscription(inscriptions, region)
      case Some(ins) => HoverOutcome(region, [MarkerHover(Some(ins))], Some(PointerCursor))
      case None => HoverOutcome(region, [], None)
    else HoverOutcome(0, [MarkerHover(None)], Some(GrabCursor))
  }

  /** The hovered uniform a hover writes is 0 or an inscription id, so a region the shader highlights is always a real one. */
  lemma HoverUniformIsRegionOrZero(pick: Pick, region: int, inscriptions: seq<Inscription>)
    requires !pick.NoMesh?
    ensures var u := HoverRoute(pick, region, inscriptions).uniform;
      u == 0 || (IsInscriptionId(u) && u == region)
  {
  }

  /**
   * The click routing once a click gets through: with no mesh or no hit it is a background
   * click; a hit reports an inscription id 1..40 that has an inscription, and anything else
   * on the mesh (no UV, region 0 or above 40) reports nothing.
   */
  function ClickRoute(pick: Pick, region: int, inscriptions: seq<Inscription>): (fired: seq<Event>)
    ensures |fired| <= 1
    ensures fired == [BackgroundClick] <==> pick.NoMesh? || pick.Miss?
    ensures (exists id :: fired == [InscriptionClick(id)]) <==>
      pick.OnMesh? && pick.uv.Some? && IsInscriptionId(region) && FindInscription(inscriptions, region).Some?
    ensures forall id :: fired == [InscriptionClick(id)] ==> id == region
  {
    match pick
    case NoMesh => [BackgroundClick]
    case Miss => [BackgroundClick]
    case OnMesh(uv) =>
      if uv.Some? && IsInscriptionId(region) && FindInscription(inscriptions, region).Some?
      then [InscriptionClick(region)]
      else []
  }

  /** With the liver's forty inscriptions, a click on a region 1..40 reports exactly that region. */
  lemma ClickOnRegionReportsIt(uv: Vec2, region: int)
    requires IsInscriptionId(region)
    ensures ClickRoute(OnMesh(Some(uv)), region, LiverInscriptions) == [InscriptionClick(region)]
  {
    EveryRegionHasInscription(region);
  }

  class InteractionManager {
    const liverModel: Segmentation.LiverModel
    const liverInscriptions: seq<Inscription>
    var isPanningOrRotating: bool
    var mouseDownPosition: Option<Point>
    var mouseMovedDuringClick: bool
    /** The cursor style of the renderer's canvas. */
    var cursor: Cursor

    constructor (liverModel: Segmentation.LiverModel, liverInscriptions: seq<Inscription>)
      ensures this.liverModel == liverModel && this.liverInscriptions == liverInscriptions
      ensures !isPanningOrRotating && mouseDownPosition.None? && !mouseMovedDuringClick
      ensures cursor == DefaultCursor
    {
      this.liverModel := liverModel;
      this.liverInscriptions := liverInscriptions;
      isPanningOrRotating := false;
      mouseDownPosition := None;
      mouseMovedDuringClick := false;
      cursor := DefaultCursor;
    }

    /** The region id the liver model holds under the pick's UV, or 0 without one. */
    function RegionUnder(pick: Pick): (id: int)
      requires liverModel.Valid()
      reads liverModel, liverModel.textureData
      ensures 0 <= id < 256
    {
      if pick.OnMesh? && pick.uv.Some? then liverModel.GetInscriptionAtUV(pick.uv.value.x, pick.uv.value.y) else 0
    }

    /** `handleMouseDown`: record the press, not yet moved. */
    method HandleMouseDown(p: Point)
      modifies this
      ensures mouseDownPosition == Some(p) && !mouseMovedDuringClick
      ensures isPanningOrRotating == old(isPanningOrRotating) && cursor == old(cursor)
    {
      mouseDownPosition := Some(p);
      mouseMovedDuringClick := false;
    }

    /**
     * `handleMouseMove`: note a move past the threshold; then, when the liver has a mesh and a
     * mask texture, route the hover to the region under the mouse.
     */
    method HandleMouseMove(p: Point, pick: Pick) returns (fired: seq<Event>)
      requires liverModel.Valid()
      modifies this, liverModel
      ensures mouseMovedDuringClick == (old(mouseMovedDuringClick) || MovedPast(old(mouseDownPosition), p))
      ensures mouseDownPosition == old(mouseDownPosition) && isPanningOrRotating == old(isPanningOrRotating)
      ensures liverModel.Valid()
      ensures liverModel.mask == old(liverModel.mask) && liverModel.textureData == old(liverModel.textureData)
      ensures liverModel.decoded == old(liverModel.decoded)
      ensures liverModel.inscriptionPositions == old(liverModel.inscriptionPositions)
      ensures liverModel.timeUniform == old(liverModel.timeUniform)
      ensures pick.NoMesh? || old(liverModel.mask).None? ==>
        fired == [] && cursor == old(cursor) && liverModel.hoveredUniform == old(liverModel.hoveredUniform)
      ensures !pick.NoMesh? && old(liverModel.mask).Some? ==>
        var o := HoverRoute(pick, old(RegionUnder(pick)), liverInscriptions);
        liverModel.hoveredUniform == o.uniform && fired == o.fired &&
        cursor == (if o.cursor.Some? then o.cursor.value else old(cursor))
    {
      if mouseDownPosition.Some? {
        var deltaX := Abs(p.x - mouseDownPosition.value.x);
        var deltaY := Abs(p.y - mouseDownPosition.value.y);
        if deltaX > MoveThreshold || deltaY > MoveThreshold {
          mouseMovedDuringClick := true;
        }
      }
      if pick.NoMesh? || liverModel.mask.None? {
        return [];
      }
      fired := [];
      if pick.OnMesh? && pick.uv.Some? {
        var inscriptionId := liverModel.GetInscriptionAtUV(pick.uv.value.x, pick.uv.value.y);
        if inscriptionId > 0 && inscriptionId <= 40 {
          liverModel.SetHoveredInscription(inscriptionId);
          var inscription := FindInscription(liverInscriptions, inscriptionId);
          if inscription.Some? {
            fired := [MarkerHover(inscription)];
            cursor := PointerCursor;
          }
        } else {
          liverModel.SetHoveredInscription(0);
          fired := [MarkerHover(None)];
          cursor := GrabCursor;
        }
      } else {
        liverModel.SetHoveredInscription(0);
        fired := [MarkerHover(None)];
        cursor := GrabCursor;
      }
    }

    /** `handleControlsStart`: the controls are active; `onInteractionStart` runs. */
    method HandleControlsStart() returns (fired: seq<Event>)
      modifies this
      ensures isPanningOrRotating && fired == [InteractionStart]
      ensures mouseDownPosition == old(mouseDownPosition) && mouseMovedDuringClick == old(mouseMovedDuringClick)
      ensures cursor == old(cursor)
    {
      isPanningOrRotating := true;
      fired := [InteractionStart];
    }

    /** `handleControlsEnd`: the controls are idle; `onInteractionEnd` runs. */
    method HandleControlsEnd() returns (fired: seq<Event>)
      modifies this
      ensures !isPanningOrRotating && fired == [InteractionEnd]
      ensures mouseDownPosition == old(mouseDownPosition) && mouseMovedDuringClick == old(mouseMovedDuringClick)
      ensures cursor == old(cursor)
    {
      isPanningOrRotating := false;
      fired := [InteractionEnd];
    }

    /**
     * `handleClick`: ignored while the controls are active; after a drag it only clears the
     * press; otherwise it clears the press and routes the click.
     */
    method HandleClick(pick: Pick) returns (fired: seq<Event>)
      requires liverModel.Valid()
      modifies this
      ensures cursor == old(cursor) && isPanningOrRotating == old(isPanningOrRotating)
      ensures old(isPanningOrRotating) ==>
        fired == [] && mouseDownPosition == old(mouseDownPosition) &&
        mouseMovedDuringClick == old(mouseMovedDuringClick)
      ensures !old(isPanningOrRotating) ==> mouseDownPosition.None? && !mouseMovedDuringClick
      ensures !old(isPanningOrRotating) && old(mouseMovedDuringClick) ==> fired == []
      ensures !old(isPanningOrRotating) && !old(mouseMovedDuringClick) ==>
        fired == ClickRoute(pick, RegionUnder(pick), liverInscriptions)
    {
      if isPanningOrRotating {
        return [];
      }
      if mouseMovedDuringClick {
        mouseDownPosition := None;
        mouseMovedDuringClick := false;
        return [];
      }
      mouseDownPosition := None;
      mouseMovedDuringClick := false;
      fired := [];
      if !pick.NoMesh? {
        if pick.OnMesh? {
          if pick.uv.Some? {
            var inscriptionId := liverModel.GetInscriptionAtUV(pick.uv.value.x, pick.uv.value.y);
            if inscriptionId > 0 && inscriptionId <= 40 {
              var inscription := FindInscription(liverInscriptions, inscriptionId);
              if inscription.Some? {
                fired := [InscriptionClick(inscriptionId)];
              }
            }
          }
        } else {
          fired := [BackgroundClick];
        }
      } else {
        fired := [BackgroundClick];
      }
    }
  }
}
