# Piacenza liver: interactive core, modelled in Dafny

This project models the interactive core of the Piacenza liver viewer. The viewer is a 3D reconstruction of the bronze
Etruscan liver on which forty inscribed regions can be hovered and clicked. The project also models the annotation tool
that produces the viewer's segmentation map.

The model covers these parts of the viewer:

- **Segmentation model** (`segmentation.dfy`):
  - the liver model keeps the red channel of the decoded segmentation image;
  - it finds the region id under a texture coordinate;
  - it computes one sampled centroid per region 1..40;
  - it holds the time and hovered-region shader uniforms.
- **Highlight shader** (`inscription_shader.dfy`), both copies:
  - the region id is decoded by rounding;
  - the id-to-colour palette;
  - the eight-neighbour border test;
  - the gates for the border tint and the hover effect.
- **UV to surface projection** (`positioning.dfy`):
  - two barycentric solvers: the camera module's and the deity markers' variant;
  - the first containing triangle;
  - the nearest-centroid and nearest-vertex fallbacks;
  - surface normals;
  - the camera viewpoint in front of a surface point.
- **Deity markers** (`deity_markers.dfy`):
  - one marker per inscription;
  - placement on the surface, or hiding;
  - visibility;
  - the single hovered marker;
  - lookup by section.
- **Mouse routing** (`interaction_manager.dfy`, `interaction_handler.dfy`):
  - telling a click from a drag (per-axis, or by distance and press time);
  - suppressing clicks while the orbit controls are active;
  - hover and click callbacks routed from an abstract raycast result.
- **Animation scheduler** (`animator.dfy`):
  - a keyed map of tweens in insertion order;
  - `animate`, `stop`, `stopAll` and `start`;
  - the per-frame pass, which advances, completes and removes tweens;
  - the easing curves;
  - `lerpVector3`;
  - `createCameraAnimation`.
- **Camera controller** (`camera_controller.dfy`), both variants:
  - the last manual pose;
  - the animating flag and key;
  - interruption by a user drag;
  - the four camera animations;
  - the roll-safe end-position adjustments.
- **Deity documents** (`deity_loader.dfy`):
  - the line-oriented markdown parser;
  - the fallback fact table;
  - the cache in front of the document fetch.
- **Light placement** (`light_controller.dfy`): the Alt-key and drag state machine that moves the spot light.
- **Annotation tool** (`segmentation_map.dfy`):
  - parsing CVAT labels, colours and polyline points;
  - the label-to-gray filtering and coordinate truncation of the segmentation map;
  - the layout of the label legend.

The supporting modules are:

- `wrappers.dfy` (Option);
- `vectors.dfy` (2D and 3D vectors, affine maps, normalisation);
- `liver_data.dfy`, a fixture with the nine groups, their position lists and colours, and the forty inscriptions;
- `text.dfy`, which holds the string builtins the parsers rely on:
  - JavaScript `trim` and Python `strip`;
  - `split` and `join`;
  - ASCII `toLowerCase`;
  - Python `int(s, base)`;
  - truncation toward zero.

Inputs from the environment are parameters:

- raycast hits;
- decoded image bytes;
- the mesh's attribute arrays and world matrix;
- timestamps;
- a vector-length function;
- the response of a fetch;
- a YAML parser;
- a Python float parser.

Callbacks are recorded as returned event sequences, in call order.

Notes on the code's behaviour:

- The CPU region lookup does not clamp to the image. A coordinate outside it yields region 0, by the bounds test at src/scene/LiverModel.ts:205-208 (`Segmentation.LiverModel.GetInscriptionAtUV`).
- A click on the mesh where no region resolves fires no callback, not a background click (`InteractionManager.ClickRoute`).
- Scheduler progress is clamped above only (`Animator.ProgressBounds`).
- A completion runs right after its own tween's update, not after all updates of the frame (`Animator.OptimizedAnimator.Update`).
- The "more conservative approach" for turns past 90° (src/core/CameraController.ts:144-157) does not bound the turn. When the requested view is exactly opposite the current one, both blends return the requested position unchanged, and the turn stays at 180° (`CameraController.OppositeViewStaysOpposite`).

## Model

| member | source | states |
|---|---|---|
| LiverData.GroupOf | src/data/liverData.ts:13-88 | the group an inscription id 1..40 belongs to lists that id among its positions |
| LiverData.GroupsPartitionIds | src/data/liverData.ts:13-88 | the nine position lists partition 1..40: an id is listed by a group exactly when it is an inscription id and that group is its group |
| LiverData.InscriptionsCoverIds | src/data/liverData.ts:363-740 | the inscription list has forty entries; entry i has id i+1 and the group that lists i+1 |
| InscriptionShader.InscriptionColor | src/shaders/LiverInscriptionShader.ts:26-65 | ids outside 1..40 are white; the group palette gives every id 1..40 a non-white colour; the legacy palette is white exactly outside 1..22 |
| InscriptionShader.GroupPaletteFollowsGroups | src/shaders/LiverInscriptionShader.ts:26-65 | each id 1..40 is drawn in the colour key of the group that lists it, to three decimals per 8-bit channel |
| InscriptionShader.GroupPaletteSeparatesGroups | src/shaders/LiverInscriptionShader.ts:26-65 | two ids 1..40 share a colour exactly when they share a group |
| InscriptionShader.LegacyPaletteLosesGroups | src/shaders/liverInscriptionShader.ts:26-40 | the palette the model loader compiles leaves ids 23..40 white, splits the pars familiaris group (17 and 21) and merges gall bladder with pars hostilis (25 and 33) |
| InscriptionShader.TruncToInt | src/shaders/LiverInscriptionShader.ts:104 | GLSL `int()` truncates toward zero |
| InscriptionShader.DecodeId | src/shaders/LiverInscriptionShader.ts:98-104 | the decoded id is the integer nearest to r·255 (within half a step) |
| InscriptionShader.DecodeRounds | src/shaders/LiverInscriptionShader.ts:104 | any red value within half a step of b/255 decodes to b |
| InscriptionShader.DecodeRoundTrip | src/shaders/liverInscriptionShader.ts:76-81 | a stored byte 0..255 read back as b/255 decodes to b |
| InscriptionShader.BorderFrom | src/shaders/LiverInscriptionShader.ts:83-88 | the neighbour loop yields 0 or 1, and 1 exactly when some remaining neighbour differs from the centre by more than 0.5 |
| InscriptionShader.DetectBorder | src/shaders/LiverInscriptionShader.ts:67-91 | the border strength is 0 or 1, and 1 exactly when one of the eight neighbours differs from the centre |
| InscriptionShader.BorderWeight | src/shaders/LiverInscriptionShader.ts:120-122 | no border gives weight 0; a border with sin in [-1,1] gives a weight in [0.072, 0.18] |
| InscriptionShader.ShimmerWeight | src/shaders/LiverInscriptionShader.ts:132-134 | the shimmer weight lies in [0.084, 0.21] for sin in [-1,1] |
| InscriptionShader.Shade | src/shaders/LiverInscriptionShader.ts:93-147 | the output alpha is the diffuse alpha; with neither gate open the colour is the diffuse colour |
| InscriptionShader.HoverOnlyOnHoveredRegion | src/shaders/LiverInscriptionShader.ts:127-145 | two hovered values that both miss the fragment's region shade it identically |
| InscriptionShader.HoverNeedsRegion | src/shaders/liverInscriptionShader.ts:104 | the hover gate is closed when either the hovered value or the fragment id is outside 1..40 |
| Positioning.CameraSolve | src/camera/Positioning.ts:101-121 | weights exist exactly when the denominator's magnitude is at least 1e-10, and they sum to 1 |
| Positioning.MarkerSolve | src/models/DeityMarkers.ts:382-407 | weights exist exactly when the denominator is non-zero, and they sum to 1 |
| Positioning.Weights | src/camera/Positioning.ts:101-121 | either solver gives weights exactly for its non-degenerate triangles, summing to 1 |
| Positioning.InsideIsSignTest | src/camera/Positioning.ts:123-127 | with exact weights the inside test is "all weights non-negative"; the sum tolerance never rejects |
| Positioning.CameraSolveAtCorners | src/camera/Positioning.ts:101-121 | the camera solve gives (1,0,0), (0,1,0), (0,0,1) at the three corners |
| Positioning.MarkerSolveAtCorners | src/models/DeityMarkers.ts:382-407 | the marker solve gives (1,0,0), (0,1,0), (0,0,1) at the three corners |
| Positioning.WeightsAtCorners | src/camera/Positioning.ts:101-121 | a UV equal to a corner's UV gets all the weight on that corner |
| Positioning.SolvesAgree | src/models/DeityMarkers.ts:382-407 | the marker solve with its swapped edges equals the camera solve wherever the latter gives weights |
| Positioning.SolversAgree | src/models/DeityMarkers.ts:382-407 | where the camera solver gives weights the marker solver gives the same ones |
| Positioning.FirstContaining | src/camera/Positioning.ts:22-50 | the triangle found contains the UV, and no earlier triangle does |
| Positioning.FirstContainingIs | src/camera/Positioning.ts:22-50 | a containing triangle with no containing triangle before it is the one found |
| Positioning.ArgMinFirst | src/camera/Positioning.ts:52-65 | the index found is a minimum, strictly smaller than every earlier entry (ties go to the earliest) |
| Positioning.ArgMinFirstUnique | src/camera/Positioning.ts:52-65 | any earliest minimum is the index the scan finds |
| Positioning.ProjectUV | src/camera/Positioning.ts:4-99 | no result exactly when positions or UVs are missing or there is no triangle or vertex to use |
| Positioning.ProjectsOntoFirstContaining | src/camera/Positioning.ts:35-49 | a UV inside a triangle with no earlier containing triangle lands on that triangle's interpolated point, in world space |
| Positioning.CornerProjectsOntoVertex | src/camera/Positioning.ts:35-49 | a corner UV of the first containing triangle lands exactly on that corner's world position |
| Positioning.FallbackIsNearestCentroid | src/camera/Positioning.ts:51-65 | with no containing triangle the result is the centroid of the earliest triangle with the nearest UV centroid |
| Positioning.NearestVertex | src/camera/Positioning.ts:67-97 | none exactly without vertices; otherwise the earliest vertex at minimal UV distance |
| Positioning.ScanTriangles | src/camera/Positioning.ts:22-65 | the indexed scan returns the projection: first containing triangle, else the nearest-centroid triangle |
| Positioning.GetWorldPositionFromUV | src/camera/Positioning.ts:4-99 | the method returns the projection of the UV onto the mesh |
| Positioning.SurfaceNormal | src/camera/Positioning.ts:129-199 | no normal without normal or UV attributes |
| Positioning.SurfaceNormalIsUnit | src/camera/Positioning.ts:129-199 | every normal handed out has unit length, unless the world matrix sends it to zero |
| Positioning.GetSurfaceNormalAtUV | src/camera/Positioning.ts:129-199 | the method's scans return the surface normal: interpolated in the first containing triangle, else the nearest vertex's |
| Positioning.CameraPositionFromSurface | src/camera/Positioning.ts:201-234 | p + (0, 0.5, 1) without a normal; otherwise the 0.8/0.2 blend of p + 0.8·n and p + 0.8·d |
| Positioning.ViewpointWithinReach | src/camera/Positioning.ts:212-214 | for a unit or zero normal the blended viewpoint lies within 0.8 of the surface point |
| Positioning.CameraWithinViewingDistance | src/camera/Positioning.ts:201-234 | when the surface has a normal the camera stays within the 0.8 viewing distance of the point |
| Segmentation.PixelIndex | src/scene/LiverModel.ts:210 | the byte offset (y·W + x)·4 of a pixel on the image lies inside the buffer |
| Segmentation.Cell | src/scene/LiverModel.ts:205-208 | floor(r) when 0 ≤ r < n, and none otherwise (no clamping) |
| Segmentation.PixelOf | src/scene/LiverModel.ts:205-208 | a pixel exactly when both scaled coordinates fall inside the image; it is their floor |
| Segmentation.RowTallyCounts | src/scene/LiverModel.ts:371-383 | a row tally counts a pixel exactly when some sampled pixel of that row carries the id |
| Segmentation.GridTallyCounts | src/scene/LiverModel.ts:365-384 | the whole-image tally is non-empty exactly when some sampled pixel carries the id |
| Segmentation.GridTallyBounds | src/scene/LiverModel.ts:371-383 | summed columns and rows stay below count·width and count·height |
| Segmentation.CentroidKeys | src/scene/LiverModel.ts:357-389 | an id gets a centroid exactly when it is in 1..40 and some pixel sampled every fourth column and row carries it |
| Segmentation.CentroidsInTextureSquare | src/scene/LiverModel.ts:385-388 | every stored position has u in [0,1) and v in (0,1] |
| Segmentation.ShaderSeesLookupRegion | src/scene/LiverModel.ts:199-212 | the shader's nearest-texel decode at (u, v) yields the same region as the CPU lookup |
| Segmentation.LiverModel.constructor | src/scene/LiverModel.ts:23-40 | no mask, no buffer, no positions, both uniforms zero |
| Segmentation.LiverModel.GetInscriptionAtUV | src/scene/LiverModel.ts:199-212 | 0 without a buffer or a mask; otherwise the red byte under (u, v), or 0 off the image; always 0..255 |
| Segmentation.LiverModel.SetHoveredInscription | src/scene/LiverModel.ts:194-197 | writes the hovered uniform and nothing else |
| Segmentation.LiverModel.UpdateShaderUniforms | src/scene/LiverModel.ts:190-192 | writes the time uniform and nothing else |
| Segmentation.LiverModel.ExtractInscriptionPositionsFromTexture | src/scene/LiverModel.ts:335-391 | the stored buffer is the red channel of the image, and the position map is the sampled region centroids |
| Segmentation.LiverModel.LoadSegmentationMap | src/scene/LiverModel.ts:294-333 | after loading, the mask is held and the positions are the image's centroids; the uniforms are untouched |
| Segmentation.LiverModel.Dispose | src/scene/LiverModel.ts:258-292 | the mask reference is dropped and the position map emptied, so later lookups give 0 |
| Segmentation.CopyRedChannel | src/scene/LiverModel.ts:350-353 | byte i of the copy is the decoded byte when i mod 4 = 0, and 0 otherwise |
| Segmentation.ScanRegion | src/scene/LiverModel.ts:365-384 | the nested sampled scan's count and sums are the region's tally |
| Segmentation.ScanRow | src/scene/LiverModel.ts:372-382 | one row of the scan adds that row's tally to the running sums, and `found` tracks a non-zero count |
| DeityMarkers.WhiteMarkersAreUnderworld | src/models/DeityMarkers.ts:55-67 | a marker falls back to '#FFFFFF' exactly for the underworld group, which the colour table lacks |
| DeityMarkers.MarkersFor | src/models/DeityMarkers.ts:28-93 | one marker per inscription, in order, with section = id, opacity 0, not hovered |
| DeityMarkers.FirstWithSection | src/models/DeityMarkers.ts:291-293 | the first marker with that section id, or none exactly when no marker has it |
| DeityMarkers.SectionsFindTheirMarkers | src/models/DeityMarkers.ts:291-293 | for the forty inscriptions, section id k finds marker k-1, and any other id finds none |
| DeityMarkers.HoverKeepsSingleHovered | src/models/DeityMarkers.ts:183-212 | after a hover the hovered marker is the one and only marker flagged hovered (none after a null hover) |
| DeityMarkers.HoverMovesHighlight | src/models/DeityMarkers.ts:183-212 | hovering the hovered marker changes nothing; otherwise the new marker gets opacity 0.9 and scale 2, the old returns to 0 and 1, and the rest are unchanged |
| DeityMarkers.HoverIdempotent | src/models/DeityMarkers.ts:183-189 | hovering the same marker twice is hovering it once |
| DeityMarkers.Place | src/models/DeityMarkers.ts:122-152 | a marker is shown at the surface point exactly when its id has a UV and the UV projects; otherwise it is hidden where it was; nothing else changes |
| DeityMarkers.Shown | src/models/DeityMarkers.ts:167-175 | visible at scale 1, nothing else changed |
| DeityMarkers.SingleHoveredByFlags | src/models/DeityMarkers.ts:96-175 | placement and visibility keep the single-hovered invariant, which reads only the hover flags |
| DeityMarkers.DeityMarkers.constructor | src/models/DeityMarkers.ts:11-25 | the markers are one per inscription and none is hovered |
| DeityMarkers.DeityMarkers.CreateMarkers | src/models/DeityMarkers.ts:28-48 | appends one new marker per inscription, in order |
| DeityMarkers.DeityMarkers.PositionMarkersFromTexture | src/models/DeityMarkers.ts:96-164 | without a mesh nothing changes; otherwise every marker is placed or hidden as `Place` says |
| DeityMarkers.DeityMarkers.UpdateVisibility | src/models/DeityMarkers.ts:167-175 | every marker becomes visible at scale 1 |
| DeityMarkers.DeityMarkers.OnMarkerHover | src/models/DeityMarkers.ts:183-189 | markers and hovered marker become the hover result |
| DeityMarkers.DeityMarkers.ApplyHoverEffect | src/models/DeityMarkers.ts:192-213 | the given marker is highlighted; a null marker changes nothing |
| DeityMarkers.DeityMarkers.ResetHoverState | src/models/DeityMarkers.ts:269-288 | the hovered marker returns to opacity 0 and scale 1, and nothing is hovered |
| DeityMarkers.DeityMarkers.GetMarkerBySection | src/models/DeityMarkers.ts:291-293 | a marker with that section id, or none exactly when no marker has it |
| DeityMarkers.DeityMarkers.Dispose | src/models/DeityMarkers.ts:306-330 | no markers and nothing hovered |
| InteractionManager.MovementIsPerAxis | src/scene/InteractionManager.ts:68-77 | a diagonal move of 4 px per axis is not a drag, though it is longer than 5 px |
| InteractionManager.FindInscription | src/scene/InteractionManager.ts:105 | the inscription found has that id; none exactly when no inscription has it |
| InteractionManager.EveryRegionHasInscription | src/scene/InteractionManager.ts:101-105 | every id 1..40 finds its inscription in the liver's list |
| InteractionManager.HoverRoute | src/scene/InteractionManager.ts:94-123 | a region 1..40 sets the uniform and reports its inscription with a pointer cursor; anything else sets 0, reports null and shows a grab cursor |
| InteractionManager.HoverUniformIsRegionOrZero | src/scene/InteractionManager.ts:94-123 | the hovered uniform a hover writes is 0 or the region id itself |
| InteractionManager.ClickRoute | src/scene/InteractionManager.ts:158-181 | at most one callback; background exactly with no mesh or no hit; an inscription click exactly for a region 1..40 with an inscription, reporting that region |
| InteractionManager.ClickOnRegionReportsIt | src/scene/InteractionManager.ts:158-181 | a click on any region 1..40 of the liver reports exactly that region |
| InteractionManager.InteractionManager.constructor | src/scene/InteractionManager.ts:30-52 | not panning, no press recorded, not moved |
| InteractionManager.InteractionManager.RegionUnder | src/scene/InteractionManager.ts:98-99 | the region under a pick is a byte 0..255 |
| InteractionManager.InteractionManager.HandleMouseDown | src/scene/InteractionManager.ts:63-66 | records the press and clears the moved flag |
| InteractionManager.InteractionManager.HandleMouseMove | src/scene/InteractionManager.ts:68-124 | sets the moved flag on a per-axis move past 5 px; without a mesh or mask nothing else happens; otherwise the hover is routed and only the hovered uniform changes on the model |
| InteractionManager.InteractionManager.HandleControlsStart | src/scene/InteractionManager.ts:126-129 | panning starts and `onInteractionStart` fires |
| InteractionManager.InteractionManager.HandleControlsEnd | src/scene/InteractionManager.ts:131-134 | panning ends and `onInteractionEnd` fires |
| InteractionManager.InteractionManager.HandleClick | src/scene/InteractionManager.ts:136-182 | ignored entirely while panning; after movement it only clears the press; otherwise it clears the press and routes the click |
| InteractionHandler.NdcCoversSquare | src/controllers/InteractionHandler.ts:70-74 | the canvas maps onto [-1,1]²: top-left to (-1,1), bottom-right to (1,-1) |
| InteractionHandler.TravelTestBySquares | src/controllers/InteractionHandler.ts:88-93 | the squared travel test agrees with distance·max(w,h)/2 > 5 |
| InteractionHandler.HoverNotices | src/controllers/InteractionHandler.ts:177-215 | the hover callback is last and present exactly when set; no hit sends it null; every other notice is a label hover |
| InteractionHandler.ClickNotices | src/controllers/InteractionHandler.ts:233-256 | at most one callback; background exactly on no hit with that callback set; a section click exactly on a hit with a section and the callback set |
| InteractionHandler.InteractionHandler.constructor | src/controllers/InteractionHandler.ts:19-49 | not dragging, no callbacks, listening |
| InteractionHandler.InteractionHandler.HandleMouseDown | src/controllers/InteractionHandler.ts:77-82 | stores the normalised position and the time, and clears the drag flag |
| InteractionHandler.InteractionHandler.HandleMouseUp | src/controllers/InteractionHandler.ts:85-96 | sets the drag flag when the travel exceeds 5 px or the press exceeds 300 ms |
| InteractionHandler.InteractionHandler.HandleMouseMove | src/controllers/InteractionHandler.ts:151-174 | while dragging, clears every hover and tells no callback; otherwise sets the cursor and routes the hover |
| InteractionHandler.InteractionHandler.ProcessHoverInteraction | src/controllers/InteractionHandler.ts:177-215 | the markers take the hover of the hit marker (or null), and the notices are sent |
| InteractionHandler.InteractionHandler.ResetAllHoverStates | src/controllers/InteractionHandler.ts:218-223 | no marker is hovered, and the labels are cleared when present |
| InteractionHandler.InteractionHandler.HandleClick | src/controllers/InteractionHandler.ts:226-257 | a click ending a drag fires nothing; any other click routes; the drag flag ends cleared |
| InteractionHandler.InteractionHandler.SetMarkerHoverCallback | src/controllers/InteractionHandler.ts:260-262 | sets the hover callback; every other field is unchanged |
| InteractionHandler.InteractionHandler.SetMarkerClickCallback | src/controllers/InteractionHandler.ts:265-267 | sets the click callback; every other field is unchanged |
| InteractionHandler.InteractionHandler.SetBackgroundClickCallback | src/controllers/InteractionHandler.ts:270-272 | sets the background callback; every other field is unchanged |
| InteractionHandler.InteractionHandler.SetEnabled | src/controllers/InteractionHandler.ts:285-291 | attaches or detaches the listeners; every other field is unchanged |
| InteractionHandler.InteractionHandler.Dispose | src/controllers/InteractionHandler.ts:309-314 | listeners removed and all three callbacks cleared; drag state, mouse, press and cursor unchanged |
| Animator.EasingEndpoints | src/utils/animationUtils.ts:2-17 | every easing maps 0 to 0 and 1 to 1 |
| Animator.InOutMidpoint | src/utils/animationUtils.ts:2-17 | the in-out easings give 1/2 at 1/2 |
| Animator.BalancedMirror | src/scene/Animation.ts:4-13 | easeInOutBalanced satisfies f(1-t) = 1 - f(t) on [0,1] |
| Animator.InOutCubicMirror | src/utils/animationUtils.ts:2-17 | easeInOutCubic satisfies the same symmetry |
| Animator.BalancedInUnit | src/scene/Animation.ts:4-13 | on [0,1] the balanced curve stays in [0,1], below 1/2 exactly on the first half |
| Animator.ProgressBounds | src/scene/Animation.ts:66-73 | progress is at most 1, non-negative once started, and 1 exactly when the duration has elapsed |
| Animator.AsMapKeys | src/scene/Animation.ts:25-42 | the map's keys are the entries' ids, each bound to its own entry |
| Animator.Set | src/scene/Animation.ts:38-39 | storing grows the map by one exactly for a new id |
| Animator.WithoutIdsMembers | src/scene/Animation.ts:85-87 | removing a set of ids keeps exactly the entries whose id is not in it |
| Animator.WithoutIdsTwice | src/scene/Animation.ts:85-87 | removing two id sets in turn removes their union |
| Animator.SetIsMapUpdate | src/scene/Animation.ts:25-42 | `Map.set` updates the dictionary at the id, keeps ids distinct, replaces in place for an old id and appends a new one |
| Animator.DeleteIsMapRemoval | src/scene/Animation.ts:45-47 | `Map.delete` removes exactly that key and shrinks the map by one when it was present |
| Animator.Remaining | src/scene/Animation.ts:75-87 | the surviving tweens are entries of the map |
| Animator.RemainingAreUnfinished | src/scene/Animation.ts:75-87 | a tween survives a frame exactly when its progress stays below 1 |
| Animator.DeletingFinishedLeavesRemaining | src/scene/Animation.ts:75-87 | deleting the completed ids after the pass leaves exactly the unfinished tweens, in order |
| Animator.FinishedIdsAreKeys | src/scene/Animation.ts:75-87 | every completed id is a key of the map |
| Animator.FrameEventsBounded | src/scene/Animation.ts:66-83 | every update call carries progress ≤ 1, and every completion belongs to a finished tween with an `onComplete` |
| Animator.OptimizedAnimator.constructor | src/scene/Animation.ts:17-22 | empty map, not running |
| Animator.OptimizedAnimator.Animate | src/scene/Animation.ts:25-42 | stores the tween under its id (replacing an earlier one), returns the id, uses the default easing when none is given, and starts the loop when idle |
| Animator.OptimizedAnimator.Stop | src/scene/Animation.ts:45-47 | deletes the tween without completing it and reports whether it was there |
| Animator.OptimizedAnimator.StopAll | src/utils/animationUtils.ts:53-56 | empties the map and clears the running flag |
| Animator.OptimizedAnimator.Start | src/scene/Animation.ts:50-55 | requests a frame exactly when idle with work |
| Animator.OptimizedAnimator.Update | src/scene/Animation.ts:58-95 | the frame makes each tween's update, then its completion when finished, in order; the unfinished tweens remain; a frame is requested exactly when some remain |
| Animator.OptimizedAnimator.DeleteIds | src/scene/Animation.ts:85-87 | the deletion loop removes every listed id |
| Animator.OptimizedAnimator.IsAnimating | src/utils/animationUtils.ts:107-109 | true exactly when the id is a key |
| Animator.OptimizedAnimator.HasActiveAnimations | src/utils/animationUtils.ts:112-114 | true exactly when the map is non-empty |
| Animator.AdvanceAll | src/scene/Animation.ts:66-83 | the pass's calls and completed ids are those of the frame |
| Animator.RemainingKeepsValid | src/scene/Animation.ts:85-87 | surviving tweens keep distinct ids and positive durations |
| Animator.Vector3.constructor | src/scene/Animation.ts:102-107 | a vector holding the given value |
| Animator.LerpVector3 | src/scene/Animation.ts:102-107 | the target becomes start + (end - start)·t, even when it is start or end itself |
| Animator.TweenPose | src/utils/animationUtils.ts:129-146 | progress 0 gives the start pose and progress 1 the end pose |
| Animator.CreateCameraAnimation | src/utils/animationUtils.ts:129-146 | duration defaults to 1500 ms; the tween runs from the start pose to the end pose |
| CameraController.EasingFor | src/controllers/CameraController.ts:63-267 | the core variant always uses the balanced easing; the other uses quartic in-out for focus and center, cubic out for return and reset |
| CameraController.RollSafePosition | src/core/CameraController.ts:63-116 | a turn under 45° keeps the end position; every case keeps the end position's distance to the end target |
| CameraController.RequestedEnd | src/core/CameraController.ts:134-142 | without a custom position the end is target + (0, 0.5, 1) |
| CameraController.ConservativeEnd | src/core/CameraController.ts:145-165 | only a turn past 90° moves the end position, and the distance to the target is kept |
| CameraController.FocusEnd | src/core/CameraController.ts:119-170 | the controllers variant uses the requested position; both keep its distance to the target |
| CameraController.SharpBlendKeepsDistance | src/core/CameraController.ts:82-95 | the 0.4/0.6 and 0.3/0.7 blends past 90° keep the distance to the target |
| CameraController.ModerateBlendKeepsDistance | src/core/CameraController.ts:96-112 | the half-way direction between 45° and 90° keeps the distance to the target |
| CameraController.OppositeViewStaysOpposite | src/core/CameraController.ts:145-168 | a requested view exactly opposite the current one is sharp, yet both blends return the requested position: the turn stays 180° |
| CameraController.CenterEndOnRay | src/controllers/CameraController.ts:170-217 | the center animation keeps the camera on its ray from the origin at distance max(1.5, |start|) |
| CameraController.FinalFrameReachesEnd | src/core/CameraController.ts:179-191 | the last frame puts camera and target at the path's end |
| CameraController.CameraController.constructor | src/controllers/CameraController.ts:13-34 | the manual pose is (0,2,3)/(0,0,0), not animating, no key |
| CameraController.CameraController.HandleControlsStart | src/core/CameraController.ts:37-43 | a user drag stops a running animation; the scheduler's running flag, the poses, the path and the listeners are untouched |
| CameraController.CameraController.HandleControlsChange | src/core/CameraController.ts:46-60 | while animating the manual pose is untouched; otherwise it becomes the current pose; flags, path and listeners unchanged |
| CameraController.CameraController.StopAnimation | src/core/CameraController.ts:371-380 | only when animating with a key, removes it from the scheduler; both flags end cleared |
| CameraController.CameraController.Launch | src/core/CameraController.ts:174-207 | schedules the tween under its key and marks the controller animating along the path; the scheduler is running and the pose, manual pose and listeners are unchanged |
| CameraController.CameraController.FocusOn | src/core/CameraController.ts:119-210 | stops any animation, records the pose at call time as manual, and animates to the target with the (roll-adjusted) end position; the scheduler is running and the current pose and listeners are unchanged until the first frame |
| CameraController.CameraController.ReturnToManualPosition | src/core/CameraController.ts:213-260 | animates back to the last manual pose; the scheduler is running and the current pose, manual pose and listeners are unchanged until the first frame |
| CameraController.CameraController.CenterLiver | src/core/CameraController.ts:263-314 | animates the target to the origin and the camera along its ray; the scheduler is running and the current pose, manual pose and listeners are unchanged until the first frame |
| CameraController.CameraController.ResetToDefault | src/core/CameraController.ts:317-368 | the default pose becomes the manual pose before animating to it; the scheduler is running and the current pose and listeners are unchanged until the first frame |
| CameraController.CameraController.FrameUpdate | src/core/CameraController.ts:179-191 | a no-op once not animating; otherwise camera and target are lerped by the same eased progress; flags, key, path, manual pose and listeners unchanged |
| CameraController.CameraController.FrameComplete | src/core/CameraController.ts:202-206 | completion clears the animating flag and the key; pose, path, manual pose and listeners unchanged |
| CameraController.CameraController.IsCurrentlyAnimating | src/core/CameraController.ts:383-385 | true exactly when a key is held |
| CameraController.CameraController.GetManualPosition | src/core/CameraController.ts:388-393 | the last manual pose |
| CameraController.CameraController.SetManualPosition | src/core/CameraController.ts:396-399 | overwrites the manual pose only; flags, key, pose, path and listeners unchanged |
| CameraController.CameraController.Dispose | src/core/CameraController.ts:402-407 | stops listening and stops any animation; poses, manual pose, path and the scheduler's running flag unchanged |
| DeityLoader.ParseDeityMarkdown | src/utils/deityLoader.js:65-129 | the loop's result is the run of the line step over the split lines |
| DeityLoader.ApplySectionLine | src/utils/deityLoader.js:95-125 | a body line changes only the current section's fields, and only the hepatoscopy section moves the list selector; blank lines are ignored; a '- ' bullet in a list section is appended without its prefix; a selector line picks its list |
| DeityLoader.PreambleOnlyNames | src/utils/deityLoader.js:84-125 | before the first '## ' line only name and roman equivalent can change |
| DeityLoader.SectionHeading | src/utils/deityLoader.js:92-94 | '## ' switches to the lower-cased heading text and clears the list selector |
| DeityLoader.HeadingWithRoman | src/utils/deityLoader.js:87-91 | '# name (roman)' sets exactly that name and roman equivalent |
| DeityLoader.HeadingWithoutRoman | src/utils/deityLoader.js:87-91 | '# name' sets the name and keeps the roman equivalent |
| DeityLoader.Kept | src/utils/deityLoader.js:95-124 | the kept prose lines are non-empty |
| DeityLoader.ProseRun | src/utils/deityLoader.js:95-124 | a prose section's text is its kept lines joined by single spaces |
| DeityLoader.BulletOnlySections | src/utils/deityLoader.js:119-122 | ritual and symbols items are exactly the '- ' bullets, prefix stripped |
| DeityLoader.ListRun | src/utils/deityLoader.js:97-122 | inside a list section each line adds its item in order until a heading |
| DeityLoader.FavorableSignsWin | src/utils/deityLoader.js:107-111 | a line containing 'favorable signs:' selects the favorable list |
| DeityLoader.UnfavorableSignsSelectFavorable | src/utils/deityLoader.js:107-111 | a line saying 'unfavorable signs:' selects the favorable list |
| DeityLoader.UnfavorableSelected | src/utils/deityLoader.js:110-111 | 'unfavorable:' without 'favorable signs:' selects the unfavorable list |
| DeityLoader.HepatoscopyBullet | src/utils/deityLoader.js:112-118 | a bullet goes to the selected list without its prefix, and is dropped when no list is selected |
| DeityLoader.BasicInfoCases | src/utils/deityLoader.js:132-145 | the roman equivalent is 'Unknown' exactly outside the table, and the generic description starts with the name |
| DeityLoader.DeityCache.constructor | src/utils/deityLoader.js:4 | the cache starts empty |
| DeityLoader.DeityCache.Load | src/utils/deityLoader.js:7-38 | a cached value returns without a request; an empty name gives null; success parses and caches; failure gives null uncached |
| LightController.DeviceCoordinatesInRange | src/controllers/LightController.js:98-99 | a mouse position on the canvas maps into [-1,1]², the left edge to -1 and the top to 1 |
| LightController.LightController.constructor | src/controllers/LightController.js:4-57 | inactive, not moving, helper hidden, light at (2,4,2) |
| LightController.LightController.HandleKeyDown | src/controllers/LightController.js:59-66 | Alt activates placement and shows the helper |
| LightController.LightController.HandleKeyUp | src/controllers/LightController.js:68-75 | releasing Alt ends placement and any drag |
| LightController.LightController.HandleMouseDown | src/controllers/LightController.js:77-83 | starts a drag and consumes the event exactly when active |
| LightController.LightController.HandleMouseUp | src/controllers/LightController.js:85-89 | ends any drag |
| LightController.LightController.HandleMouseMove | src/controllers/LightController.js:91-116 | only while dragging: the mouse position is updated and, on a plane hit, the light goes to hit + (0,2,0) |
| LightController.LightController.Dispose | src/controllers/LightController.js:122-139 | the handlers are detached; placement state, helper, cursor, mouse position and light are unchanged |
| SegmentationMap.PySlice | public/liver-model/create_segmentation_map.py:34 | Python slicing: the slice for in-range bounds, never longer than the string |
| SegmentationMap.ColorRoundTrip | public/liver-model/create_segmentation_map.py:34 | a colour written '#rrggbb' parses back to its three channels |
| SegmentationMap.Hex2Reads | public/liver-model/create_segmentation_map.py:34 | two lower-case hex digits read back as their value in base 16 |
| SegmentationMap.BlankIsStrippedEmpty | public/liver-model/create_segmentation_map.py:54 | a piece is skipped exactly when stripping leaves the empty string |
| SegmentationMap.NonBlankFilters | public/liver-model/create_segmentation_map.py:53-54 | the pieces kept are exactly the non-blank ones, and a list without blanks is kept whole |
| SegmentationMap.MapAllPointwise | public/liver-model/create_segmentation_map.py:52-56 | the list is built exactly when every element converts, one result per element in order |
| SegmentationMap.PointsOfJoined | public/liver-model/create_segmentation_map.py:51-56 | non-blank pairs joined by ';' read back pair by pair |
| SegmentationMap.ParsePoints | public/liver-model/create_segmentation_map.py:52-56 | the loop's points are the non-blank pieces parsed in order, or an error when a pair is malformed |
| SegmentationMap.ParsePiece | public/liver-model/create_segmentation_map.py:53-56 | one turn of the points loop: a blank piece is skipped, any other is parsed and appended, or the parse fails |
| SegmentationMap.DictSetIsUpdate | public/liver-model/create_segmentation_map.py:35 | dict assignment keeps keys distinct and in insertion order, binds the name, and changes no other key |
| SegmentationMap.BuildLabelsDefined | public/liver-model/create_segmentation_map.py:29-35 | the label dict is built exactly when every colour parses |
| SegmentationMap.BuildLabelsLastWins | public/liver-model/create_segmentation_map.py:29-35 | a name's colour is that of its last label element |
| SegmentationMap.BuildLabelsKeys | public/liver-model/create_segmentation_map.py:29-35 | every key comes from some label element |
| SegmentationMap.ParseLabels | public/liver-model/create_segmentation_map.py:29-35 | the loop builds the label dict |
| SegmentationMap.ParseAnnotations | public/liver-model/create_segmentation_map.py:46-61 | the loop builds one annotation per polyline |
| SegmentationMap.AnnotationsPointwise | public/liver-model/create_segmentation_map.py:46-61 | the annotations exist exactly when every points string parses, each keeping its label and points |
| SegmentationMap.ParseCvat | public/liver-model/create_segmentation_map.py:15-63 | succeeds exactly when labels, width, height and every points string parse; returns those values |
| SegmentationMap.IntPoints | public/liver-model/create_segmentation_map.py:94 | each coordinate is truncated toward zero |
| SegmentationMap.FillsAndSkipsCoverAll | public/liver-model/create_segmentation_map.py:82-97 | every annotation is either filled or skipped |
| SegmentationMap.FillsComeFromLabels | public/liver-model/create_segmentation_map.py:87-97 | each fill has gray = int(label) and the truncated points of an annotation |
| SegmentationMap.CreateSegmentationMap | public/liver-model/create_segmentation_map.py:65-103 | a width×height canvas with the fills in list order, and one warning per skipped label with the script's text |
| SegmentationMap.KeysPointwise | public/liver-model/create_segmentation_map.py:121-123 | the sort keys exist exactly when every label is an integer |
| SegmentationMap.Insert | public/liver-model/create_segmentation_map.py:121 | insertion adds exactly the element |
| SegmentationMap.InsertSorted | public/liver-model/create_segmentation_map.py:121 | insertion keeps the keys ascending |
| SegmentationMap.SortByKeyIsSort | public/liver-model/create_segmentation_map.py:121 | the sort is ascending by integer label and a permutation |
| SegmentationMap.CreateLabelMap | public/liver-model/create_segmentation_map.py:105-136 | fails on a non-integer label; otherwise the legend is 40·n by 400 with row i the i-th label by integer key at offset 40·i, grays ascending |
| SegmentationMap.LayoutRows | public/liver-model/create_segmentation_map.py:120-133 | row i sits at offset 40·i, and sorted keys give ascending grays |
| SegmentationMap.RowsInsideLegend | public/liver-model/create_segmentation_map.py:115-131 | every swatch and text baseline lies inside the legend |
| Text.Strip | src/utils/deityLoader.js:85 | strip removes exactly the leading and trailing whitespace, and is empty only for all-whitespace input |
| Text.StripTwice | src/utils/deityLoader.js:85 | stripping twice is stripping once |
| Text.SplitOn | src/utils/deityLoader.js:66 | split yields at least one piece and no piece holds the separator |
| Text.JoinSplit | src/utils/deityLoader.js:66 | joining the pieces of a split gives the string back |
| Text.SplitJoin | public/liver-model/create_segmentation_map.py:53 | splitting a join gives the parts back when no part holds the separator |
| Text.ToLower | src/utils/deityLoader.js:93 | lower-casing keeps the length and leaves no ASCII capital |
| Text.PyIntOfDigits | public/liver-model/create_segmentation_map.py:88 | `int()` of a digit run is its value |
| Text.Truncate | public/liver-model/create_segmentation_map.py:94 | `int()` of a float truncates toward zero |

## Definitions

These functions define the source operations directly. The Model rows above state their properties through the lemmas and methods that use them.

- `Animator.Ease`: the easing curves of src/scene/Animation.ts:4-13 and src/utils/animationUtils.ts:2-17.
- `Animator.Progress`: a tween's progress, src/scene/Animation.ts:66-73.
- `Animator.FrameEvents`: the update and completion calls of one frame, src/scene/Animation.ts:66-83.
- `DeityLoader.LineStep`: the effect of one trimmed line in `parseDeityMarkdown`, src/utils/deityLoader.js:84-125.
- `DeityLoader.Parse`: `parseDeityMarkdown`, src/utils/deityLoader.js:65-129.
- `DeityLoader.BasicDeityInfo`: `getBasicDeityInfo`, src/utils/deityLoader.js:132-145.
- `SegmentationMap.ParseColor`: the `#rrggbb` conversion, public/liver-model/create_segmentation_map.py:34.
- `SegmentationMap.SortByKey`: the sort of the labels by integer value, public/liver-model/create_segmentation_map.py:121.
- `Text.PyInt`: Python's `int(s, base)`, public/liver-model/create_segmentation_map.py:34 and :88.
- `Text.Trim`: JavaScript's `trim`, src/utils/deityLoader.js:85.
- `InteractionHandler.Ndc`: `updateMouseCoordinates`, src/controllers/InteractionHandler.ts:70-74.
- `InteractionHandler.Travelled`: the drag-distance test, src/controllers/InteractionHandler.ts:88-93.
- `LightController.DeviceCoordinates`: the mouse-to-device mapping, src/controllers/LightController.js:98-99.

## Left out

- Asset loading, texture and OBJ loaders, timeouts and WebGL checks are left out. The model starts from a decoded RGBA buffer and mesh attribute arrays.
- `positionMarkersWhenReady` is left out. It polls for the mesh with a timer.
- Three.js internals are parameters:
  - raycasting is a given hit;
  - `lookAt`, `camera.up` and `controls.update` are left out;
  - `Vector3.length` is a parameter constrained to be a Euclidean length;
  - `angleTo` against 45° and 90° is expressed as cosine tests;
  - the slerp half-way direction is `normalize(s + e)`.
- Floating point is modelled with exact reals, and `distanceTo` with squared distance, which has the same argmin. The 1e-6 sum tolerance of the inside test never rejects exact weights.
- `sin` of the time uniform is a parameter. The GPU colour blend is kept, but only its weights are bounded.
- `createNumberLabel` and the canvas label text are left out.
- `getMarkersForRaycasting`, `getSectionFromMarker` and `getMarkerFromIntersection` are reduced to marker indices.
- The `animateInitialRotation` frame loop is cosmetic and is left out.
- `parseDeityYaml` wraps js-yaml and is the `parseYaml` parameter. `fetch` is the given `FetchOutcome`.
- Concurrent loads of the same document are not modelled.
- `Text.ToLower` lower-cases ASCII only, while `toLowerCase` also folds other scripts.
- `Text.PyInt` accepts ASCII digits only. It does not accept Unicode digits or the underscores Python's `int()` allows.
- `DeityLoader.BasicDeityInfo` ignores the inherited object keys (such as `constructor`) that JavaScript's lookup would find.
- Python's `float()` is the `parseFloat` parameter.
- Outside the modelled values, the annotation tool's calls are foreign:
  - XML parsing (ElementTree), `cv2.fillPoly`, `cv2.rectangle`, `cv2.putText`, `cv2.imwrite`, `argparse` and `main` are not modelled;
  - the segmentation map is the list of fills it draws;
  - the legend is its row geometry.
- The image fields come from the first `image` element only, and the model takes that element as given.
- `SegmentationMap.CreateSegmentationMap` does not model the uint8 conversion of gray values outside 0..255, nor numpy's handling of degenerate polygons.
- `SegmentationMap.SortByKey` is shown to be sorted and a permutation. Its stability (Python's `sorted` is stable) is not proved.
- `Animator.OptimizedAnimator.Animate` requires a positive duration; the source divides by the duration unchecked. Re-entrant callbacks that start tweens during a frame are not modelled, since callbacks are returned as events.
- `CameraController.CameraController.FocusOn` and the other three animations require a positive duration when one is given, for the same reason.
- `LightController.LightController.HandleMouseMove` requires a canvas of positive size while a drag is under way, because the source then divides by it unchecked.
- `InteractionHandler.InteractionHandler.HandleMouseDown`, `HandleMouseUp` and `HandleMouseMove` require a canvas of positive size, because the source divides by it unchecked on every such event. `HandleClick` requires it only for a click that does not end a drag.
- `InteractionHandler.InteractionHandler.HandleMouseMove` and `HandleClick` take the raycast hit as an input. `getIntersectedObjects` and `getLiverIntersection` are not modelled.
- `DeityMarkers.DeityMarkers.ApplyHoverEffect` and `ResetHoverState` model only opacity, scale and the hover flag. The number-label visibility they also toggle is left out.
- The orbit controls move the camera position and target outside the controller. The model reads them as fields and does not model the controls.
- The canvas cursor style is shared by the light controller and both mouse handlers, and each overwrites it. Each class keeps only its own last write as a `cursor` field, so the model does not say which cursor is on screen.

## Findings

| source | as written | input that shows it | evidently intended | confidence | as-written member | corrected member |
|---|---|---|---|---|---|---|
| src/shaders/liverInscriptionShader.ts:26-40 | the palette compiled into the liver material (imported by src/scene/LiverModel.ts:4-8) colours only ids 1..22, in six ranges that do not follow the groups | id 30: white, though it belongs to pars hostilis; ids 17 and 21 share a group but get different colours; ids 25 and 33 are in different groups but share a colour | one colour per cosmological group over 1..40, as in src/shaders/LiverInscriptionShader.ts:26-65 and the group table | high for the inputs shown, not executed | InscriptionShader.LegacyPaletteLosesGroups | InscriptionShader.GroupPaletteSeparatesGroups |
