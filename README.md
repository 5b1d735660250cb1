# Face geometry helpers of the face-selection toolbox, in Dafny

This project models `GeometryHelpers` in `src/toolbox/geomhelpers.js`. That is the part of the face-selection toolbox that works on a three.js `BufferGeometry` face by face. It does four things:

- It resolves a face number to its three vertex positions, either through the index buffer (indexed layout) or as nine consecutive floats (non-indexed layout). This is `extractFaceData`.
- It lists every face of a mesh. This is `getAllFaceIndices`.
- It runs the visibility passes that filter candidate faces:
  - `frustumCulling` keeps faces whose model-transformed centroid is inside the frustum built from projection · view · model;
  - `getFacesFacingCamera` keeps faces whose normal points at the camera;
  - `depthMappingBVH` keeps faces that are not hidden behind other geometry (occlusion);
  - `visibleFaceFiltering` combines the facing test and the occlusion test.
- Each pass walks its candidates in order and pushes the survivors onto a fresh array.

Modules:

- `Wrappers` (`wrappers.dfy`): `Option`. In the model of JavaScript reads, `None` stands for `undefined`.
- `Sequences` (`sequences.dfy`): `Filter`, the result of a push loop, and lemmas that say exactly what a filter keeps and in which order.
- `GeometryHelpers` (`geomhelpers.dfy`): the buffers, `ExtractFaceData`, the face count, and the passes as methods with loops.
- `GeometryHelpersAsWritten` (`findings.dfy`): the two places listed under "## Findings", modelled as written.

How the model treats what it does not compute:

- Floating-point geometry is supplied by a `CameraView`. Its four functions take a face's extracted vertices:
  - whether the frustum contains the world-space centroid;
  - the dot product of the face normal with the direction to the camera;
  - the distance of the first bounds-tree ray hit, if there is one;
  - the distance from the camera to the centroid.
- For faces whose reads are in range, the model states exactly which buffer slots each vertex comes from, and that a missing index slot gives the rounded origin. It also states how many faces each pass walks, in which order, and the exact acceptance test of each pass:
  - `getFacesFacingCamera` keeps a face only if the dot product is strictly `> 0`;
  - `visibleFaceFiltering` skips a face only if the dot product is `< 0`;
  - a face is occluded when `hit.distance < maxDistance - 0.01`;
  - a pass given no list uses every face.
- Every acceptance test takes the per-face vertex lookup as a parameter. The passes use `MeshVertices`, the vertices `ExtractFaceData` reads with `getVertices` set (`FaceLookup` on defined face numbers). So the lemmas about what each pass keeps hold whatever the buffers hold.
- JavaScript reads are total. A read past the end of an array, or at a NaN position, gives `undefined`. The three.js `Vector3` constructor turns an `undefined` coordinate into its default 0. So `ExtractFaceData` has no bounds precondition; bounds appear only in the lemmas that name the buffer slots.
- `Utils.setVectorPrecision` (`src/toolbox/utils.js`) is the `toPrecision` parameter. It is applied to every coordinate with `FloatPrecision = 5`.
- Loop bounds follow JavaScript's real division. `for (i = 0; i < count / 3; i++)` runs ⌈count / 3⌉ times (`IterationsBelow`).
- The facing tests compare the dot product against a fixed 0.

## Model

| member | source | states |
|---|---|---|
| `GeometryHelpers.ExtractFaceData` | src/toolbox/geomhelpers.js:12-74 | the record keeps the face index; without `getVertices` it is `{index, []}` whatever the geometry; with it, it holds exactly three vertices |
| `GeometryHelpers.ExtractWithoutVerticesReadsNothing` | src/toolbox/geomhelpers.js:12-16 | without `getVertices` the result depends on neither the buffers nor the rounding, and the vertex list is empty |
| `GeometryHelpers.IndexedVertex` | src/toolbox/geomhelpers.js:17-42 | indexed layout: vertex k of face f is `positions[3i .. 3i+2]` (rounded) with `i = index[3f+k]`, when `3f+k` and `3i+2` are in range |
| `GeometryHelpers.NonIndexedVertex` | src/toolbox/geomhelpers.js:44-65 | non-indexed layout: vertex k of face f is `positions[9f+3k .. 9f+3k+2]` (rounded); the face stride is 9 floats |
| `GeometryHelpers.MissingIndexSlotGivesOrigin` | src/toolbox/geomhelpers.js:22-42 | an index slot past the end makes that vertex the rounded origin |
| `GeometryHelpers.IterationsBelow` | src/toolbox/geomhelpers.js:85 | the number of runs of `i < count / d` is the least n with `count <= d * n` |
| `GeometryHelpers.FaceCountOfWellFormed` | src/toolbox/geomhelpers.js:82 | a mesh with 3n indices, or with no index and 9n floats, has exactly n faces |
| `GeometryHelpers.WalkedFacesInRange` | src/toolbox/geomhelpers.js:100-123 | on a well-formed mesh every face walked has its index triple or its nine floats in range |
| `GeometryHelpers.GetAllFaceIndices` | src/toolbox/geomhelpers.js:76-90 | returns exactly `[0, 1, ..., faceCount-1]` in ascending order |
| `GeometryHelpers.FrustumCulling` | src/toolbox/geomhelpers.js:92-142 | the result is the filter of all faces by centroid containment; it is strictly increasing; i is in it iff `i < faceCount` and its centroid is in the frustum |
| `GeometryHelpers.FaceListOrAll` | src/toolbox/geomhelpers.js:204-205 | the list a pass walks is the given one, or `getAllFaceIndices` of the mesh when none is given |
| `GeometryHelpers.GetFacesFacingCamera` | src/toolbox/geomhelpers.js:204-248 | the result is the given list (every face when none is given) filtered in order by `dot > 0` on each face's extracted vertices |
| `GeometryHelpers.FacingMembership` | src/toolbox/geomhelpers.js:220-245 | `getFacesFacingCamera` keeps i iff i is in the list and its dot is strictly positive |
| `GeometryHelpers.IsVisible` | src/toolbox/geomhelpers.js:292-299 | the `_bVisible` flag is false iff a first hit exists with `distance < maxDistance - 0.01` |
| `GeometryHelpers.DepthMappingBVH` | src/toolbox/geomhelpers.js:250-308 | the result is the list (every face when none is given) filtered in order by "not occluded" on each face's extracted vertices |
| `GeometryHelpers.VisibleFaceFiltering` | src/toolbox/geomhelpers.js:310-381 | the result is the given elements (every face number when none is given) filtered in order, kept as given, by "dot not < 0 and not occluded" on the vertices of the face each element names |
| `GeometryHelpers.StrictFacingIsNarrower` | src/toolbox/geomhelpers.js:242-244 | every face kept by the strict `> 0` test passes the `< 0`-skip test; a listed face with a dot of exactly 0 is dropped by the first and kept by the second |
| `GeometryHelpers.DepthMappingDropsOnlyOccluded` | src/toolbox/geomhelpers.js:292-303 | a listed face is dropped iff a hit exists with `distance < maxDistance - 0.01`; no hit, or a hit at or beyond that bound, keeps it |
| `GeometryHelpers.VisibleIsFacingThenDepth` | src/toolbox/geomhelpers.js:357-376 | on bare face numbers, `visibleFaceFiltering` as corrected (second row of "## Findings") keeps a face iff it is not back-facing and `depthMappingBVH` keeps it |
| `GeometryHelpers.VisibleRecordsAreFacingThenDepth` | src/toolbox/geomhelpers.js:334-376 | on `{index}` records, `visibleFaceFiltering` keeps a face iff it is not back-facing and `depthMappingBVH` keeps it |
| `GeometryHelpers.DefaultListJudgedPerFace` | src/toolbox/geomhelpers.js:312-336 | given no list, face i is kept iff `i < faceCount` and its own vertices pass both tests |
| `Sequences.KeptPositions` | src/toolbox/geomhelpers.js:220-245 | the positions whose element passes, strictly ascending; every passing position is listed |
| `Sequences.FilterIsSelection` | src/toolbox/geomhelpers.js:220-245 | a pass's output is the input read at the kept positions: an order-preserving subsequence that holds every passing element and no failing one |
| `Sequences.FilterMembership` | src/toolbox/geomhelpers.js:274-303 | x is in the output iff x is in the input and passes |
| `Sequences.FilterCount` | src/toolbox/geomhelpers.js:334-376 | a passing element occurs in the output as often as in the input; a failing one never occurs |
| `Sequences.FilterKeepsIncreasing` | src/toolbox/geomhelpers.js:121-141 | filtering a strictly increasing list yields a strictly increasing list |
| `Sequences.FilterStep` | src/toolbox/geomhelpers.js:242-244 | one loop step appends the next element iff it passes |
| `Sequences.FilterCongruent` | src/toolbox/geomhelpers.js:334-336 | two tests that agree on the input select the same output |
| `Sequences.FilterUniform` | src/toolbox/geomhelpers.js:334-336 | a test that gives one verdict on every element keeps all of the input or none of it |
| `GeometryHelpersAsWritten.AsWrittenCountAgreesWhenIndexed` | src/toolbox/geomhelpers.js:82 | with an index buffer the face count as written equals the intended one |
| `GeometryHelpersAsWritten.NonIndexedTriangleIsLost` | src/toolbox/geomhelpers.js:82 | a non-indexed single triangle is enumerated as `[]` as written and as `[0]` as intended |
| `GeometryHelpersAsWritten.NonIndexedPassesAsWrittenAreEmpty` | src/toolbox/geomhelpers.js:100-103 | as written, a pass that walks the enumeration of a non-indexed mesh (`frustumCulling`, or `getFacesFacingCamera`, `depthMappingBVH` and `visibleFaceFiltering` with no list) returns `[]`, whatever its test |
| `GeometryHelpersAsWritten.DefaultListAllOrNothing` | src/toolbox/geomhelpers.js:312-336 | as written, `visibleFaceFiltering` with no list keeps all faces or none |
| `GeometryHelpersAsWritten.AsWrittenAgreesOnMeshRecords` | src/toolbox/geomhelpers.js:334-336 | on a list of `{index}` records over a mesh, the as-written pass with that mesh's vertex lookup equals `visibleFaceFiltering` as corrected |
| `GeometryHelpersAsWritten.AsWrittenAgreesOnRecords` | src/toolbox/geomhelpers.js:334-336 | on a list of `{index}` records, the as-written pass equals the corrected one whenever the two vertex lookups agree on defined face numbers |
| `GeometryHelpersAsWritten.RecordsAsWrittenAreFacingThenDepth` | src/toolbox/geomhelpers.js:334-376 | on `{index}` records, the pass as written on a mesh keeps a face iff it is not back-facing and `depthMappingBVH` keeps it |
| `GeometryHelpersAsWritten.DefaultListDisagrees` | src/toolbox/geomhelpers.js:310-381 | on an indexed mesh with one face that should be kept and one that should not, the as-written and corrected results with no list differ, whatever the as-written lookup gives for `undefined` |

## Findings

| source | as written | input that shows it | evidently intended | confidence | as-written member | corrected member |
|---|---|---|---|---|---|---|
| src/toolbox/geomhelpers.js:82 (and :100) | the non-indexed face count is `positionAttr / 3`; dividing the attribute object gives NaN, so the face loop never runs | a non-indexed geometry holding one triangle (9 floats): `getAllFaceIndices` returns `[]` and `frustumCulling` returns `[]` | `positionAttr.count / 3`, one face per three vertices | high, not executed | `GeometryHelpersAsWritten.NonIndexedTriangleIsLost` (count `FaceCountAsWritten`), `GeometryHelpersAsWritten.NonIndexedPassesAsWrittenAreEmpty` (the passes) | `GeometryHelpers.FaceCountOfWellFormed` (count `FaceCount`) |
| src/toolbox/geomhelpers.js:312, 336 | with no list, the default list holds bare face numbers, but each element is read as `faceIndex.index`, which is `undefined`; every face is then judged by the same degenerate face | an indexed mesh with one face that should be kept and one that should not, called with no list: the result is all faces or none | read a bare number as the face number itself, as the comment at line 335 ("Change behaviour based on data type") suggests | medium, not executed | `GeometryHelpersAsWritten.DefaultListAllOrNothing` (pass `VisibleFaceFilteringAsWritten`) | `GeometryHelpers.DefaultListJudgedPerFace` (pass `VisibleFaceFiltering`) |

## Left out

- GeometryHelpers.GetAllFaceIndices, GeometryHelpers.FrustumCulling, GeometryHelpers.GetFacesFacingCamera, GeometryHelpers.DepthMappingBVH, GeometryHelpers.FaceListOrAll, GeometryHelpers.VisibleFaceFiltering, GeometryHelpers.DefaultListJudgedPerFace: these use the corrected non-indexed face count (first row of "## Findings"), not NaN. For the last five this affects only the default list used when none is given. As written, each default list is `[]` on a non-indexed mesh (`GeometryHelpersAsWritten.NonIndexedPassesAsWrittenAreEmpty`), so each pass then returns `[]`; and the count as written is `GeometryHelpersAsWritten.FaceCountAsWritten`.
- GeometryHelpers.VisibleFaceFiltering: this reads a bare number as its own face number (second row of "## Findings"), and it also uses the corrected non-indexed count for its default list; the pass as written is `GeometryHelpersAsWritten.VisibleFaceFilteringAsWritten`.
- `frustumCullingBVH` (lines 144-202): its output order is the traversal order of three-mesh-bvh's `shapecast`, which is library code.
- `visibleFaceFilteringAlt` (lines 383-474): it calls `computeBoundsTreeReal`, which is not defined anywhere, and it relies on three.js `Raycaster.intersectObject`.
- GeometryHelpers.DepthMappingBVH, GeometryHelpers.VisibleFaceFiltering: the model assumes the bounds tree already exists when a pass runs, as `Scene.prepareMesh` (src/toolbox/scene.js) ensures, so the lazy `computeBoundsTree()` call and its `console.warn` are left out. Building the tree in three-mesh-bvh's default mode adds an index to non-indexed geometry and reorders the face triples in place. That changes which vertices a face number reads, and a list built before the first build would then name other triangles. The model passes one fixed `Geometry` through each pass and does not capture this. The ray cast itself is the `CameraView` function `raycastFirst`.
- The unused `Raycaster` objects created at lines 271-272 and 331-332: nothing reads them.
- The fallback `Toolbox.Scene.camera` when no camera is passed: the camera is always the explicit `CameraView` parameter.
- three.js vector and matrix maths: `applyMatrix4`, the centroid, `crossVectors().normalize()`, `distanceTo`, `Frustum.containsPoint`. These are floating-point library code; the model takes their results from `CameraView`.
- Vertices whose floats run partly or entirely past the end of the position array (a vertex index with `3i + 2 >= |positions|`, or a non-indexed face with `9f + 8 >= |positions|`): `ExtractFaceData` computes them, reading each missing coordinate as 0 (the rounded origin when all three are missing), but no lemma names their slots.
- Float32 storage, NaN coordinates and the exact rounding of `toPrecision`: coordinates are reals, and rounding is the opaque `toPrecision` parameter.
- Face indices that are not non-negative integers: the passes take `nat` face numbers, or `FaceRef` elements in `visibleFaceFiltering`.
- `src/toolbox/scene.js`, `src/main.js` and `src/toolbox/toolbox.js`: renderer, camera and DOM setup, UI wiring and prototype patching. None of them is part of this model.
- The brush, lasso, selection state and highlight renderer of the wider toolbox are not in these source files and are not part of this model.
