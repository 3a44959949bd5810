/**
 * The deity markers of `DeityMarkers.ts`: one invisible sphere per inscription, placed on
 * the liver surface at the centroid UV of its region, and a single hovered marker shown
 * opaque and enlarged.
 *
 * Each three.js marker mesh is modelled by the value of the state the class changes on it
 * (material opacity, uniform scale, visibility, position and the `userData` fields). The
 * `markers` array becomes a sequence of those values, and a marker reference, such as the
 * hovered marker, becomes its index in that sequence: markers are distinct objects, so two
 * references are the same marker exactly when their indices are equal.
 */
module DeityMarkers {
  import opened Wrappers
  import opened Vectors
  import opened LiverData
  import Positioning

  /** The marker colour table, keyed by group id. It has no entry for `underworld`. */
  const MarkerColors: map<string, string> := map[
    "sky" := "#87CEEB",
    "water" := "#008B8B",
    "earth" := "#8B4513",
    "pars_familiaris" := "#DC143C",
    "gall_bladder" := "#2E8B57",
    "central_section" := "#FFD700",
    "pars_hostilis" := "#8A2BE2",
    "retro" := "#808080"]

  const Fallback := "#FFFFFF"

  /** `groupColors[groupId] || '#FFFFFF'`. */
  function BaseColor(groupId: string): string
  {
    if groupId in MarkerColors then MarkerColors[groupId] else Fallback
  }

  /** Only the underworld group falls back to white; every other group has its own colour. */
  lemma WhiteMarkersAreUnderworld(g: Group)
    ensures BaseColor(GroupKey(g)) == Fallback <==> g == Underworld
  {
    if g == Underworld {
      assert "underworld"[0] == 'u';
      assert forall k | k in MarkerColors :: k[0] != 'u';
    }
  }

  /** The part of a marker mesh the class reads and writes. */
  datatype Marker = Marker(
    inscription: Inscription,
    sectionId: int,
    baseColor: string,
    opacity: real,
    scale: real,
    visible: bool,
    isHovered: bool,
    position: Vec3)

  /**
   * `createColoredAreaMarker`: a transparent marker (opacity 0) at the origin, carrying the
   * inscription and its id as section, coloured by its group; a new mesh is visible at scale 1.
   */
  function NewMarker(ins: Inscription): Marker
  {
    Marker(ins, ins.id, BaseColor(GroupKey(ins.group)), 0.0, 1.0, true, false, Zero3)
  }

  /** The markers `createMarkers` appends: one per inscription, in order. */
  function MarkersFor(inscriptions: seq<Inscription>): (ms: seq<Marker>)
    ensures |ms| == |inscriptions|
    ensures forall i :: 0 <= i < |ms| ==>
      ms[i].sectionId == inscriptions[i].id && ms[i].inscription == inscriptions[i] &&
      ms[i].opacity == 0.0 && !ms[i].isHovered
  {
    seq(|inscriptions|, i requires 0 <= i < |inscriptions| => NewMarker(inscriptions[i]))
  }

  // ---------------------------------------------------------------------------------
  // Lookup by section

  /** `markers.find(m => m.userData.sectionId === sectionId) || null`, searching from `from`. */
  function FirstWithSection(ms: seq<Marker>, sectionId: int, from: nat): (r: Option<nat>)
    decreases |ms| - from
    ensures r.Some? ==>
      from <= r.value < |ms| && ms[r.value].sectionId == sectionId &&
      forall j :: from <= j < r.value ==> ms[j].sectionId != sectionId
    ensures r.None? <==> forall j :: from <= j < |ms| ==> ms[j].sectionId != sectionId
  {
    if from >= |ms| then None
    else if ms[from].sectionId == sectionId then Some(from)
    else FirstWithSection(ms, sectionId, from + 1)
  }

  /** The markers made for the forty inscriptions are found by their ids: id `k` is marker `k - 1`. */
  lemma SectionsFindTheirMarkers(id: int)
    ensures IsInscriptionId(id) ==> FirstWithSection(MarkersFor(LiverInscriptions), id, 0) == Some(id - 1)
    ensures !IsInscriptionId(id) ==> FirstWithSection(MarkersFor(LiverInscriptions), id, 0).None?
  {
    var ms := MarkersFor(LiverInscriptions);
    InscriptionsCoverIds();
    assert forall j :: 0 <= j < |ms| ==> ms[j].sectionId == j + 1;
    if IsInscriptionId(id) {
      assert ms[id - 1].sectionId == id;
    }
  }

  // ---------------------------------------------------------------------------------
  // Hover

  /** `applyHoverEffect` on one marker: hovered, opacity 0.9, scale 2. */
  function Highlighted(m: Marker): Marker
  {
    m.(isHovered := true, opacity := 0.9, scale := 2.0)
  }

  /** The reset half of `resetHoverState` on one marker: not hovered, opacity 0, scale 1. */
  function Unhovered(m: Marker): Marker
  {
    m.(isHovered := false, opacity := 0.0, scale := 1.0)
  }

  /** A hovered marker reference is an index into the markers. */
  predicate InRange(ms: seq<Marker>, h: Option<nat>)
  {
    h.Some? ==> h.value < |ms|
  }

  /** The bookkeeping invariant: the hovered marker is the one and only marker flagged hovered. */
  predicate SingleHovered(ms: seq<Marker>, h: Option<nat>)
  {
    InRange(ms, h) && forall i :: 0 <= i < |ms| ==> (ms[i].isHovered <==> h == Some(i))
  }

  /** The markers after `resetHoverState`. */
  function Reset(ms: seq<Marker>, h: Option<nat>): seq<Marker>
    requires InRange(ms, h)
  {
    if h.Some? then ms[h.value := Unhovered(ms[h.value])] else ms
  }

  /** The markers after `applyHoverEffect(marker)`; nothing happens for a null marker. */
  function Apply(ms: seq<Marker>, marker: Option<nat>): seq<Marker>
    requires InRange(ms, marker)
  {
    if marker.Some? then ms[marker.value := Highlighted(ms[marker.value])] else ms
  }

  /** Markers and hovered marker after `onMarkerHover(marker)`. */
  function Hover(ms: seq<Marker>, h: Option<nat>, marker: Option<nat>): (seq<Marker>, Option<nat>)
    requires InRange(ms, h) && InRange(ms, marker)
  {
    if h == marker then (ms, h) else (Apply(Reset(ms, h), marker), marker)
  }

  /** Hovering keeps exactly one marker flagged, the hovered one, or none after a null hover. */
  lemma HoverKeepsSingleHovered(ms: seq<Marker>, h: Option<nat>, marker: Option<nat>)
    requires SingleHovered(ms, h) && InRange(ms, marker)
    ensures SingleHovered(Hover(ms, h, marker).0, Hover(ms, h, marker).1)
    ensures Hover(ms, h, marker).1 == marker
  {
    if h != marker {
      var r := Reset(ms, h);
      assert forall i :: 0 <= i < |r| ==> !r[i].isHovered;
    }
  }

  /**
   * Hovering a new marker highlights it, returns the previously hovered one to opacity 0 and
   * scale 1, and leaves every other marker as it was; hovering the hovered marker again
   * changes nothing.
   */
  lemma HoverMovesHighlight(ms: seq<Marker>, h: Option<nat>, marker: Option<nat>)
    requires InRange(ms, h) && InRange(ms, marker)
    ensures var (ms', _) := Hover(ms, h, marker);
      |ms'| == |ms| &&
      (h == marker ==> ms' == ms) &&
      (h != marker && marker.Some? ==>
        var j := marker.value;
        ms'[j].isHovered && ms'[j].opacity == 0.9 && ms'[j].scale == 2.0) &&
      (h != marker && h.Some? ==>
        var k := h.value;
        !ms'[k].isHovered && ms'[k].opacity == 0.0 && ms'[k].scale == 1.0) &&
      (forall i :: 0 <= i < |ms| && Some(i) != h && Some(i) != marker ==> ms'[i] == ms[i])
  {
  }

  /** The hover state is idempotent: hovering the same marker twice is hovering it once. */
  lemma HoverIdempotent(ms: seq<Marker>, h: Option<nat>, marker: Option<nat>)
    requires InRange(ms, h) && InRange(ms, marker)
    ensures var (ms', h') := Hover(ms, h, marker);
      InRange(ms', h') && Hover(ms', h', marker) == (ms', h')
  {
  }

  // ---------------------------------------------------------------------------------
  // Placement and visibility

  /**
   * What `positionMarkersFromTexture` does to one marker: move it to the surface point of its
   * region's centroid UV and show it, or hide it when its id has no UV entry or the UV does
   * not project onto the mesh. Nothing else about the marker changes.
   */
  function Place(m: Marker, positions: map<int, Vec2>, mesh: Positioning.Mesh): (r: Marker)
    requires Positioning.WellFormed(mesh)
    ensures r.visible <==>
      m.sectionId in positions && Positioning.ProjectUV(Positioning.MarkerSolver, mesh, positions[m.sectionId]).Some?
    ensures r.visible ==>
      r.position == Positioning.ProjectUV(Positioning.MarkerSolver, mesh, positions[m.sectionId]).value
    ensures !r.visible ==> r.position == m.position
    ensures r.(visible := m.visible, position := m.position) == m
  {
    if m.sectionId !in positions then m.(visible := false)
    else
      match Positioning.ProjectUV(Positioning.MarkerSolver, mesh, positions[m.sectionId])
      case Some(p) => m.(position := p, visible := true)
      case None => m.(visible := false)
  }

  /** `updateVisibility` on one marker: scale 1 and visible, whatever positioning decided. */
  function Shown(m: Marker): (r: Marker)
    ensures r.visible && r.scale == 1.0
    ensures r.(visible := m.visible, scale := m.scale) == m
  {
    m.(scale := 1.0, visible := true)
  }

  /** The single-hovered invariant only reads the hover flags, which placement and visibility keep. */
  lemma SingleHoveredByFlags(ms: seq<Marker>, ms': seq<Marker>, h: Option<nat>)
    requires SingleHovered(ms, h) && |ms'| == |ms|
    requires forall i :: 0 <= i < |ms| ==> ms'[i].isHovered == ms[i].isHovered
    ensures SingleHovered(ms', h)
  {
  }

  class DeityMarkers {
    /** The inscriptions the markers were made for. */
    const liverInscriptions: seq<Inscription>
    var markers: seq<Marker>
    /** `hoveredMarker`: the index of the hovered marker, or none. */
    var hoveredMarker: Option<nat>

    ghost predicate Valid()
      reads this
    {
      SingleHovered(markers, hoveredMarker)
    }

    /** The constructor: no markers, nothing hovered, then `createMarkers`. */
    constructor (inscriptions: seq<Inscription>)
      ensures Valid()
      ensures liverInscriptions == inscriptions
      ensures markers == MarkersFor(inscriptions) && hoveredMarker.None?
    {
      liverInscriptions := inscriptions;
      markers := [];
      hoveredMarker := None;
      new;
      CreateMarkers();
    }

    /** `createMarkers`: push one new marker per inscription, in order. */
    method CreateMarkers()
      requires Valid()
      modifies this
      ensures Valid()
      ensures markers == old(markers) + MarkersFor(liverInscriptions)
      ensures hoveredMarker == old(hoveredMarker)
    {
      var i := 0;
      while i < |liverInscriptions|
        invariant 0 <= i <= |liverInscriptions|
        invariant markers == old(markers) + MarkersFor(liverInscriptions[..i])
        invariant hoveredMarker == old(hoveredMarker)
        invariant Valid()
      {
        markers := markers + [NewMarker(liverInscriptions[i])];
        assert MarkersFor(liverInscriptions[..i + 1]) ==
          MarkersFor(liverInscriptions[..i]) + [NewMarker(liverInscriptions[i])];
        i := i + 1;
      }
      assert liverInscriptions[..i] == liverInscriptions;
    }

    /**
     * `positionMarkersFromTexture`, given the liver mesh (none when the liver model or its
     * mesh is missing, and then nothing changes) and the model's inscription positions.
     */
    method PositionMarkersFromTexture(mesh: Option<Positioning.Mesh>, positions: map<int, Vec2>)
      requires Valid() && (mesh.Some? ==> Positioning.WellFormed(mesh.value))
      modifies this
      ensures Valid() && hoveredMarker == old(hoveredMarker)
      ensures mesh.None? ==> markers == old(markers)
      ensures mesh.Some? ==>
        |markers| == |old(markers)| &&
        forall i :: 0 <= i < |markers| ==> markers[i] == Place(old(markers)[i], positions, mesh.value)
    {
      if mesh.None? {
        return;
      }
      var liverMesh := mesh.value;
      var i := 0;
      while i < |markers|
        invariant 0 <= i <= |markers| == |old(markers)|
        invariant forall k :: 0 <= k < i ==> markers[k] == Place(old(markers)[k], positions, liverMesh)
        invariant forall k :: i <= k < |markers| ==> markers[k] == old(markers)[k]
        invariant hoveredMarker == old(hoveredMarker)
      {
        var marker := markers[i];
        if marker.sectionId in positions {
          var worldPosition := Positioning.GetWorldPositionFromUV(Positioning.MarkerSolver, liverMesh, positions[marker.sectionId]);
          if worldPosition.Some? {
            markers := markers[i := marker.(position := worldPosition.value, visible := true)];
          } else {
            markers := markers[i := marker.(visible := false)];
          }
        } else {
          markers := markers[i := marker.(visible := false)];
        }
        i := i + 1;
      }
      SingleHoveredByFlags(old(markers), markers, hoveredMarker);
    }

    /** `updateVisibility`: every marker back to scale 1 and visible. */
    method UpdateVisibility()
      requires Valid()
      modifies this
      ensures Valid() && hoveredMarker == old(hoveredMarker)
      ensures |markers| == |old(markers)|
      ensures forall i :: 0 <= i < |markers| ==> markers[i] == Shown(old(markers)[i])
    {
      var i := 0;
      while i < |markers|
        invariant 0 <= i <= |markers| == |old(markers)|
        invariant forall k :: 0 <= k < i ==> markers[k] == Shown(old(markers)[k])
        invariant forall k :: i <= k < |markers| ==> markers[k] == old(markers)[k]
        invariant hoveredMarker == old(hoveredMarker)
      {
        markers := markers[i := markers[i].(scale := 1.0, visible := true)];
        i := i + 1;
      }
      SingleHoveredByFlags(old(markers), markers, hoveredMarker);
    }

    /** `onMarkerHover(marker)`, with none standing for a null marker. */
    method OnMarkerHover(marker: Option<nat>)
      requires Valid() && InRange(markers, marker)
      modifies this
      ensures Valid()
      ensures (markers, hoveredMarker) == Hover(old(markers), old(hoveredMarker), marker)
    {
      if hoveredMarker == marker {
        return;
      }
      ResetHoverState();
      hoveredMarker := marker;
      ApplyHoverEffect(marker);
      HoverKeepsSingleHovered(old(markers), old(hoveredMarker), marker);
    }

    /** `applyHoverEffect(marker)`. */
    method ApplyHoverEffect(marker: Option<nat>)
      requires InRange(markers, marker)
      modifies this
      ensures markers == Apply(old(markers), marker) && hoveredMarker == old(hoveredMarker)
    {
      if marker.Some? {
        var j := marker.value;
        markers := markers[j := markers[j].(isHovered := true, opacity := 0.9, scale := 2.0)];
      }
    }

    /** `resetHoverState`: the hovered marker returns to its default look; nothing is hovered. */
    method ResetHoverState()
      requires InRange(markers, hoveredMarker)
      modifies this
      ensures markers == Reset(old(markers), old(hoveredMarker)) && hoveredMarker.None?
    {
      if hoveredMarker.Some? {
        var k := hoveredMarker.value;
        markers := markers[k := markers[k].(isHovered := false, opacity := 0.0, scale := 1.0)];
      }
      hoveredMarker := None;
    }

    /** `getMarkerBySection`: the first marker with that section id, or none. */
    function GetMarkerBySection(sectionId: int): (r: Option<nat>)
      reads this
      ensures r.Some? ==> r.value < |markers| && markers[r.value].sectionId == sectionId
      ensures r.None? <==> forall j :: 0 <= j < |markers| ==> markers[j].sectionId != sectionId
    {
      FirstWithSection(markers, sectionId, 0)
    }

    /** `dispose`: reset the hover state and drop every marker. */
    method Dispose()
      requires Valid()
      modifies this
      ensures Valid() && markers == [] && hoveredMarker.None?
    {
      ResetHoverState();
      markers := [];
    }
  }
}
