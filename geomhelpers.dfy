/**
 * Per-face geometry bookkeeping of the face-selection toolbox's
 * `GeometryHelpers` (src/toolbox/geomhelpers.js): resolving a face index to
 * its three vertex positions in a three.js BufferGeometry, enumerating the
 * faces, and the visibility passes that filter candidate faces.
 *
 * The float geometry inside the passes (model-matrix transform, centroid,
 * normalised cross product, frustum containment, BVH ray cast, distance) is
 * not modelled: a `CameraView` supplies it as functions of a face's
 * extracted vertices. What is modelled is which buffer slots are read, how
 * many faces are walked, in which order, and the exact acceptance test each
 * pass writes.
 */
module GeometryHelpers {
  import opened Wrappers
  import opened Sequences

  /** Significant digits every extracted coordinate is rounded to. */
  const FloatPrecision: nat := 5

  /** The slack by which a ray hit must be nearer than the face to occlude it. */
  const OcclusionMargin: real := 0.01

  datatype Vec3 = Vec3(x: real, y: real, z: real)

  /**
   * The buffers of a BufferGeometry the helpers read: the optional index
   * buffer (vertex-index triples, one per face) and the flat position array
   * (3 floats per vertex).
   */
  datatype Geometry = Geometry(index: Option<seq<nat>>, positions: seq<real>)

  /** The record `extractFaceData` builds: `{ index, vertices }`. */
  datatype Face = Face(index: nat, vertices: seq<Vec3>)

  /**
   * What a camera and a mesh (with its world matrix and bounds tree) say
   * about one face, given the face's extracted vertices:
   * - containsCentroid: the frustum built from projection * view * model
   *   contains the model-transformed centroid;
   * - normalDotView: the face normal dotted with the unit vector from the
   *   centroid towards the camera;
   * - raycastFirst: distance of the first bounds-tree hit of the ray from the
   *   camera towards the centroid, if any;
   * - distanceToCentroid: distance from the camera to the centroid.
   */
  datatype CameraView = CameraView(
    containsCentroid: seq<Vec3> -> bool,
    normalDotView: seq<Vec3> -> real,
    raycastFirst: seq<Vec3> -> Option<real>,
    distanceToCentroid: seq<Vec3> -> real)

  /**
   * An element of the list `visibleFaceFiltering` walks: either a bare face
   * number or a record carrying the face number in its `index` field.
   */
  datatype FaceRef = FaceNumber(n: nat) | FaceRecord(index: nat)

  // ---------------------------------------------------------------------
  // Reading flat buffers the way JavaScript does

  /** `j * scale + offset`, where an undefined or NaN position stays NaN (`None`). */
  function Offset(j: Option<nat>, scale: nat, offset: nat): Option<nat>
  {
    match j
    case None => None
    case Some(v) => Some(v * scale + offset)
  }

  /** `buf[j]`: `undefined` (`None`) for a NaN position or one past the end. */
  function Read<T>(buf: seq<T>, j: Option<nat>): Option<T>
  {
    if j.Some? && j.value < |buf| then Some(buf[j.value]) else None
  }

  /**
   * One coordinate as `extractFaceData` produces it: the position read,
   * with `undefined` replaced by the Vector3 constructor's default 0, then
   * rounded by `setVectorPrecision`.
   */
  function Coordinate(positions: seq<real>, j: Option<nat>, toPrecision: (real, nat) -> real): real
  {
    var raw := match Read(positions, j) case Some(v) => v case None => 0.0;
    toPrecision(raw, FloatPrecision)
  }

  /** The vertex whose three coordinates start at float slot `base`. */
  function VertexAt(positions: seq<real>, base: Option<nat>, toPrecision: (real, nat) -> real): Vec3
  {
    Vec3(Coordinate(positions, Offset(base, 1, 0), toPrecision),
         Coordinate(positions, Offset(base, 1, 1), toPrecision),
         Coordinate(positions, Offset(base, 1, 2), toPrecision))
  }

  /**
   * The three vertices of face `faceIndex` (`None` when the face index
   * itself is undefined): through the index buffer when there is one,
   * otherwise nine consecutive floats per face.
   */
  function FaceVertices(faceIndex: Option<nat>, g: Geometry, toPrecision: (real, nat) -> real): (vs: seq<Vec3>)
    ensures |vs| == 3
  {
    match g.index
    case Some(indices) =>
      var a := Read(indices, Offset(faceIndex, 3, 0));
      var b := Read(indices, Offset(faceIndex, 3, 1));
      var c := Read(indices, Offset(faceIndex, 3, 2));
      [VertexAt(g.positions, Offset(a, 3, 0), toPrecision),
       VertexAt(g.positions, Offset(b, 3, 0), toPrecision),
       VertexAt(g.positions, Offset(c, 3, 0), toPrecision)]
    case None =>
      var idx := Offset(faceIndex, 9, 0);
      [VertexAt(g.positions, Offset(idx, 1, 0), toPrecision),
       VertexAt(g.positions, Offset(idx, 1, 3), toPrecision),
       VertexAt(g.positions, Offset(idx, 1, 6), toPrecision)]
  }

  // ---------------------------------------------------------------------
  // extractFaceData

  /**
   * The record for face `faceIndex`; its vertices are read only when
   * `getVertices` is set, so without it no buffer is consulted.
   */
  function ExtractFaceData(faceIndex: nat, g: Geometry, getVertices: bool, toPrecision: (real, nat) -> real): (face: Face)
    ensures face.index == faceIndex
    ensures !getVertices ==> face == Face(faceIndex, [])
    ensures getVertices ==> |face.vertices| == 3
  {
    Face(faceIndex, if getVertices then FaceVertices(Some(faceIndex), g, toPrecision) else [])
  }

  /** Without `getVertices` the result depends on neither the geometry nor the rounding. */
  lemma ExtractWithoutVerticesReadsNothing(faceIndex: nat, g1: Geometry, g2: Geometry,
                                           p1: (real, nat) -> real, p2: (real, nat) -> real)
    ensures ExtractFaceData(faceIndex, g1, false, p1) == ExtractFaceData(faceIndex, g2, false, p2)
    ensures ExtractFaceData(faceIndex, g1, false, p1).vertices == []
  {
  }

  /**
   * Indexed layout: vertex `k` of face `f` is the `i`-th vertex of the
   * position array, `i = index[3f + k]`, whenever both reads are in range.
   */
  lemma IndexedVertex(f: nat, g: Geometry, toPrecision: (real, nat) -> real, k: nat)
    requires g.index.Some? && k < 3
    requires 3 * f + k < |g.index.value|
    requires 3 * g.index.value[3 * f + k] + 2 < |g.positions|
    ensures var i := g.index.value[3 * f + k];
            ExtractFaceData(f, g, true, toPrecision).vertices[k] ==
              Vec3(toPrecision(g.positions[3 * i], FloatPrecision),
                   toPrecision(g.positions[3 * i + 1], FloatPrecision),
                   toPrecision(g.positions[3 * i + 2], FloatPrecision))
  {
    var i := g.index.value[3 * f + k];
    var vs := FaceVertices(Some(f), g, toPrecision);
    assert vs[k] == VertexAt(g.positions, Some(3 * i), toPrecision) by {
      if k == 0 {} else if k == 1 {} else {}
    }
  }

  /**
   * Non-indexed layout: the stride per face is 9 floats, so vertex `k` of
   * face `f` is `positions[9f + 3k .. 9f + 3k + 2]`.
   */
  lemma NonIndexedVertex(f: nat, g: Geometry, toPrecision: (real, nat) -> real, k: nat)
    requires g.index.None? && k < 3
    requires 9 * f + 8 < |g.positions|
    ensures ExtractFaceData(f, g, true, toPrecision).vertices[k] ==
              Vec3(toPrecision(g.positions[9 * f + 3 * k], FloatPrecision),
                   toPrecision(g.positions[9 * f + 3 * k + 1], FloatPrecision),
                   toPrecision(g.positions[9 * f + 3 * k + 2], FloatPrecision))
  {
    var vs := FaceVertices(Some(f), g, toPrecision);
    assert vs[k] == VertexAt(g.positions, Some(9 * f + 3 * k), toPrecision) by {
      if k == 0 {} else if k == 1 {} else {}
    }
  }

  /**
   * A face whose index-buffer slot lies past the end reads an undefined
   * vertex index, so that vertex is the rounded origin.
   */
  lemma MissingIndexSlotGivesOrigin(f: nat, g: Geometry, toPrecision: (real, nat) -> real, k: nat)
    requires g.index.Some? && k < 3
    requires 3 * f + k >= |g.index.value|
    ensures var zero := toPrecision(0.0, FloatPrecision);
            ExtractFaceData(f, g, true, toPrecision).vertices[k] == Vec3(zero, zero, zero)
  {
  }

  // ---------------------------------------------------------------------
  // Face count and getAllFaceIndices

  /**
   * How many times `for (let i = 0; i < count / d; i++)` runs when `/` is
   * JavaScript's real division: the least `n` with `count <= d * n`.
   */
  function IterationsBelow(count: nat, d: nat): (n: nat)
    requires d > 0
    ensures count <= d * n
    ensures n == 0 || d * (n - 1) < count
    decreases count
  {
    if count == 0 then 0
    else if count <= d then 1
    else 1 + IterationsBelow(count - d, d)
  }

  /**
   * The number of faces the helpers walk: index count / 3 for indexed
   * geometry, vertex count / 3 (the position attribute's `count`, i.e.
   * floats / 3) otherwise.
   */
  function FaceCount(g: Geometry): nat
  {
    match g.index
    case Some(indices) => IterationsBelow(|indices|, 3)
    case None => IterationsBelow(|g.positions|, 9)
  }

  /** A well-formed mesh has exactly index count / 3, resp. vertex count / 3, faces. */
  lemma FaceCountOfWellFormed(g: Geometry, n: nat)
    requires match g.index
             case Some(indices) => |indices| == 3 * n
             case None => |g.positions| == 9 * n
    ensures FaceCount(g) == n
  {
  }

  /** Every face walked has its index-buffer triple or its nine floats in range (well-formed meshes). */
  lemma WalkedFacesInRange(g: Geometry, f: nat)
    requires f < FaceCount(g)
    ensures g.index.Some? && |g.index.value| % 3 == 0 ==> 3 * f + 2 < |g.index.value|
    ensures g.index.None? && |g.positions| % 9 == 0 ==> 9 * f + 8 < |g.positions|
  {
  }

  /** `getAllFaceIndices`: every face number, ascending. */
  method GetAllFaceIndices(g: Geometry) returns (faceIndices: seq<nat>)
    ensures |faceIndices| == FaceCount(g)
    ensures forall k :: 0 <= k < |faceIndices| ==> faceIndices[k] == k
  {
    var faceCount := FaceCount(g);
    faceIndices := [];
    for i := 0 to faceCount
      invariant |faceIndices| == i
      invariant forall k :: 0 <= k < i ==> faceIndices[k] == k
    {
      var face := ExtractFaceData(i, g, false, (x, p) => x);
      faceIndices := faceIndices + [face.index];
    }
  }

  /** The list a pass walks: the one given, or every face when none is given. */
  function FacesOrAll(faceIndices: Option<seq<nat>>, g: Geometry): seq<nat>
  {
    match faceIndices
    case Some(list) => list
    case None => Range(FaceCount(g))
  }

  /** `if (!faceIndices) faceIndices = getAllFaceIndices(mesh)`. */
  method FaceListOrAll(faceIndices: Option<seq<nat>>, g: Geometry) returns (faces: seq<nat>)
    ensures faces == FacesOrAll(faceIndices, g)
  {
    if faceIndices.Some? {
      faces := faceIndices.value;
    } else {
      faces := GetAllFaceIndices(g);
      assert faces == Range(FaceCount(g));
    }
  }

  // ---------------------------------------------------------------------
  // Acceptance tests of the passes, on a face's vertices

  /** `hit && hit.distance < maxDistance - 0.01`. */
  predicate Occluded(view: CameraView, vs: seq<Vec3>)
  {
    match view.raycastFirst(vs)
    case None => false
    case Some(d) => d < view.distanceToCentroid(vs) - OcclusionMargin
  }

  /** The `_bVisible` flag of one face: false iff a first hit lies nearer than the face less the margin. */
  method IsVisible(view: CameraView, vertices: seq<Vec3>) returns (visible: bool)
    ensures visible <==> !Occluded(view, vertices)
  {
    var maxDistance := view.distanceToCentroid(vertices);
    var hit := view.raycastFirst(vertices);
    visible := true;
    if hit.Some? && hit.value < maxDistance - OcclusionMargin {
      visible := false;
    }
  }

  /**
   * The vertices `extractFaceData(faceIndex, geometry, true)` reads, for a
   * face index that may itself be undefined (`None`).
   */
  function FaceLookup(g: Geometry, toPrecision: (real, nat) -> real): Option<nat> -> seq<Vec3>
  {
    j => FaceVertices(j, g, toPrecision)
  }

  /** `FaceLookup` on defined face numbers: the lookup the passes apply to the faces they walk. */
  function MeshVertices(g: Geometry, toPrecision: (real, nat) -> real): nat -> seq<Vec3>
  {
    (i: nat) => FaceLookup(g, toPrecision)(Some(i))
  }

  /** What `extractFaceData(i, geometry, true)` returns as vertices is `MeshVertices` at `i`. */
  lemma ExtractedVerticesAreMeshVertices(i: nat, g: Geometry, toPrecision: (real, nat) -> real)
    ensures ExtractFaceData(i, g, true, toPrecision).vertices == MeshVertices(g, toPrecision)(i)
  {
    assert MeshVertices(g, toPrecision)(i) == FaceLookup(g, toPrecision)(Some(i));
  }

  // The acceptance tests below take the vertex lookup as a parameter, so
  // what is proved about them holds whatever the buffers hold.

  /** `frustum.containsPoint(centroid)`. */
  function InFrustumTest(verts: nat -> seq<Vec3>, view: CameraView): nat -> bool
  {
    (i: nat) => view.containsCentroid(verts(i))
  }

  /** `getFacesFacingCamera`'s test: `dot > 0`. */
  function FacingTest(verts: nat -> seq<Vec3>, view: CameraView): nat -> bool
  {
    (i: nat) => view.normalDotView(verts(i)) > 0.0
  }

  /** `visibleFaceFiltering`'s facing step: a face is skipped only when `dot < 0`. */
  function NotBackFacingTest(verts: nat -> seq<Vec3>, view: CameraView): nat -> bool
  {
    (i: nat) => !(view.normalDotView(verts(i)) < 0.0)
  }

  /** `depthMappingBVH`'s test: the face is not occluded. */
  function UnoccludedTest(verts: nat -> seq<Vec3>, view: CameraView): nat -> bool
  {
    (i: nat) => !Occluded(view, verts(i))
  }

  /** The face number an element of `visibleFaceFiltering`'s list stands for. */
  function FaceRefIndex(e: FaceRef): nat
  {
    match e
    case FaceNumber(n) => n
    case FaceRecord(index) => index
  }

  /** Not back-facing (`dot < 0` skips) and not occluded. */
  predicate VisibleVertices(view: CameraView, vs: seq<Vec3>)
  {
    !(view.normalDotView(vs) < 0.0) && !Occluded(view, vs)
  }

  /** `visibleFaceFiltering`'s test on an element of its list. */
  function VisibleTest(verts: nat -> seq<Vec3>, view: CameraView): FaceRef -> bool
  {
    e => VisibleVertices(view, verts(FaceRefIndex(e)))
  }

  // ---------------------------------------------------------------------
  // The passes

  /** `frustumCulling`: the faces whose centroid lies in the camera frustum, ascending. */
  method FrustumCulling(g: Geometry, view: CameraView, toPrecision: (real, nat) -> real)
    returns (facesInFrustum: seq<nat>)
    ensures facesInFrustum == Filter(Range(FaceCount(g)), InFrustumTest(MeshVertices(g, toPrecision), view))
    ensures forall a, b :: 0 <= a < b < |facesInFrustum| ==> facesInFrustum[a] < facesInFrustum[b]
    ensures forall i: nat :: i in facesInFrustum <==>
              i < FaceCount(g) && view.containsCentroid(MeshVertices(g, toPrecision)(i))
  {
    var faceCount := FaceCount(g);
    ghost var all := Range(faceCount);
    facesInFrustum := [];
    for i := 0 to faceCount
      invariant facesInFrustum == Filter(all[..i], InFrustumTest(MeshVertices(g, toPrecision), view))
    {
      var face := ExtractFaceData(i, g, true, toPrecision);
      FilterStep(all, i, InFrustumTest(MeshVertices(g, toPrecision), view));
      ExtractedVerticesAreMeshVertices(i, g, toPrecision);
      assert all[i] == i && face.vertices == MeshVertices(g, toPrecision)(i);
      if view.containsCentroid(face.vertices) {
        facesInFrustum := facesInFrustum + [i];
      }
    }
    assert all[..faceCount] == all;
    FilterKeepsIncreasing(all, InFrustumTest(MeshVertices(g, toPrecision), view));
    forall i: nat
      ensures i in facesInFrustum <==> i < faceCount && view.containsCentroid(MeshVertices(g, toPrecision)(i))
    {
      FilterMembership(all, InFrustumTest(MeshVertices(g, toPrecision), view), i);
      assert i < faceCount ==> all[i] == i;
    }
  }

  /**
   * `getFacesFacingCamera`: the faces of the list (every face when none is
   * given), in list order, whose normal makes a strictly positive dot
   * product with the direction to the camera.
   */
  method GetFacesFacingCamera(faceIndices: Option<seq<nat>>, g: Geometry, view: CameraView,
                              toPrecision: (real, nat) -> real)
    returns (frontFacingFaces: seq<nat>)
    ensures frontFacingFaces == Filter(FacesOrAll(faceIndices, g), FacingTest(MeshVertices(g, toPrecision), view))
  {
    var faces := FaceListOrAll(faceIndices, g);
    ghost var keep := FacingTest(MeshVertices(g, toPrecision), view);
    frontFacingFaces := [];
    for k := 0 to |faces|
      invariant frontFacingFaces == Filter(faces[..k], keep)
    {
      var faceIndex := faces[k];
      var face := ExtractFaceData(faceIndex, g, true, toPrecision);
      var facing := view.normalDotView(face.vertices) > 0.0;
      assert keep(faceIndex) == facing by {
        ExtractedVerticesAreMeshVertices(faceIndex, g, toPrecision);
        assert face.vertices == MeshVertices(g, toPrecision)(faceIndex);
      }
      FilterStep(faces, k, keep);
      if facing {
        frontFacingFaces := frontFacingFaces + [faceIndex];
      }
    }
    assert faces[..|faces|] == faces;
  }

  /**
   * `depthMappingBVH`: the faces of the list (every face when none is given),
   * in list order, that no bounds-tree hit occludes by more than the margin.
   */
  method DepthMappingBVH(faceIndices: Option<seq<nat>>, g: Geometry, view: CameraView,
                         toPrecision: (real, nat) -> real)
    returns (visibleFaces: seq<nat>)
    ensures visibleFaces == Filter(FacesOrAll(faceIndices, g), UnoccludedTest(MeshVertices(g, toPrecision), view))
  {
    var faces := FaceListOrAll(faceIndices, g);
    ghost var keep := UnoccludedTest(MeshVertices(g, toPrecision), view);
    visibleFaces := [];
    for k := 0 to |faces|
      invariant visibleFaces == Filter(faces[..k], keep)
    {
      var faceIndex := faces[k];
      var face := ExtractFaceData(faceIndex, g, true, toPrecision);
      var visible := IsVisible(view, face.vertices);
      assert keep(faceIndex) == visible by {
        ExtractedVerticesAreMeshVertices(faceIndex, g, toPrecision);
        assert face.vertices == MeshVertices(g, toPrecision)(faceIndex);
      }
      FilterStep(faces, k, keep);
      if visible {
        visibleFaces := visibleFaces + [faceIndex];
      }
    }
    assert faces[..|faces|] == faces;
  }

  /** Bare face numbers as elements of `visibleFaceFiltering`'s list. */
  function FaceNumbers(faces: seq<nat>): seq<FaceRef>
  {
    seq(|faces|, k requires 0 <= k < |faces| => FaceNumber(faces[k]))
  }

  /** `{index}` records for the given face numbers, as elements of `visibleFaceFiltering`'s list. */
  function Records(faces: seq<nat>): seq<FaceRef>
  {
    seq(|faces|, k requires 0 <= k < |faces| => FaceRecord(faces[k]))
  }

  /** The list `visibleFaceFiltering` walks: the one given, or every face number. */
  function RefsOrAll(faceRefs: Option<seq<FaceRef>>, g: Geometry): seq<FaceRef>
  {
    match faceRefs
    case Some(list) => list
    case None => FaceNumbers(Range(FaceCount(g)))
  }

  /**
   * `visibleFaceFiltering`: the elements of the list (every face number when
   * none is given), in list order and as given, whose face is not back-facing
   * (a dot product of exactly 0 passes) and not occluded.
   */
  method VisibleFaceFiltering(faceRefs: Option<seq<FaceRef>>, g: Geometry, view: CameraView,
                              toPrecision: (real, nat) -> real)
    returns (visibleFaces: seq<FaceRef>)
    ensures visibleFaces == Filter(RefsOrAll(faceRefs, g), VisibleTest(MeshVertices(g, toPrecision), view))
  {
    var faces: seq<FaceRef>;
    if faceRefs.Some? {
      faces := faceRefs.value;
    } else {
      var all := GetAllFaceIndices(g);
      faces := FaceNumbers(all);
      assert all == Range(FaceCount(g));
    }
    assert faces == RefsOrAll(faceRefs, g);
    ghost var keep := VisibleTest(MeshVertices(g, toPrecision), view);
    visibleFaces := [];
    for k := 0 to |faces|
      invariant visibleFaces == Filter(faces[..k], keep)
    {
      var faceRef := faces[k];
      var face := ExtractFaceData(FaceRefIndex(faceRef), g, true, toPrecision);
      assert keep(faceRef) == VisibleVertices(view, face.vertices) by {
        ExtractedVerticesAreMeshVertices(FaceRefIndex(faceRef), g, toPrecision);
        assert face.vertices == MeshVertices(g, toPrecision)(FaceRefIndex(faceRef));
      }
      FilterStep(faces, k, keep);
      if view.normalDotView(face.vertices) < 0.0 {
        continue;
      }
      var visible := IsVisible(view, face.vertices);
      if visible {
        visibleFaces := visibleFaces + [faceRef];
      }
    }
    assert faces[..|faces|] == faces;
  }

  // ---------------------------------------------------------------------
  // What each pass keeps, and how the passes' tests relate. These hold for
  // every vertex lookup `verts`; the passes use `MeshVertices(g, toPrecision)`.

  /** `getFacesFacingCamera` keeps a face iff it is listed and its dot product is strictly positive. */
  lemma {:induction false} FacingMembership(faces: seq<nat>, verts: nat -> seq<Vec3>, view: CameraView, i: nat)
    ensures i in Filter(faces, FacingTest(verts, view)) <==>
              i in faces && view.normalDotView(verts(i)) > 0.0
  {
    FilterMembership(faces, FacingTest(verts, view), i);
  }

  /**
   * Every face `getFacesFacingCamera` keeps also passes the facing step of
   * `visibleFaceFiltering`; a listed face whose dot product is exactly 0 is
   * dropped by the former and passes the latter.
   */
  lemma {:induction false} StrictFacingIsNarrower(faces: seq<nat>, verts: nat -> seq<Vec3>, view: CameraView, i: nat)
    ensures i in Filter(faces, FacingTest(verts, view)) ==> i in Filter(faces, NotBackFacingTest(verts, view))
    ensures i in faces && view.normalDotView(verts(i)) == 0.0 ==>
              i !in Filter(faces, FacingTest(verts, view)) && i in Filter(faces, NotBackFacingTest(verts, view))
  {
    FilterMembership(faces, FacingTest(verts, view), i);
    FilterMembership(faces, NotBackFacingTest(verts, view), i);
  }

  /**
   * `depthMappingBVH` drops a listed face exactly when a hit exists nearer
   * than the face's distance minus 0.01: no hit, or a hit at or beyond that
   * bound, keeps it.
   */
  lemma {:induction false} DepthMappingDropsOnlyOccluded(faces: seq<nat>, verts: nat -> seq<Vec3>, view: CameraView,
                                                         i: nat)
    requires i in faces
    ensures i !in Filter(faces, UnoccludedTest(verts, view)) <==>
              view.raycastFirst(verts(i)).Some? &&
              view.raycastFirst(verts(i)).value < view.distanceToCentroid(verts(i)) - 0.01
  {
    FilterMembership(faces, UnoccludedTest(verts, view), i);
  }

  /**
   * For a list of bare face numbers, `visibleFaceFiltering` as corrected
   * (reading a number as itself) keeps a face iff it is not back-facing and
   * `depthMappingBVH` would keep it.
   */
  lemma {:induction false} VisibleIsFacingThenDepth(faces: seq<nat>, verts: nat -> seq<Vec3>, view: CameraView, i: nat)
    ensures FaceNumber(i) in Filter(FaceNumbers(faces), VisibleTest(verts, view)) <==>
              i in Filter(faces, NotBackFacingTest(verts, view)) &&
              i in Filter(faces, UnoccludedTest(verts, view))
  {
    var refs := FaceNumbers(faces);
    FilterMembership(refs, VisibleTest(verts, view), FaceNumber(i));
    assert FaceRefIndex(FaceNumber(i)) == i;
    FilterMembership(faces, NotBackFacingTest(verts, view), i);
    FilterMembership(faces, UnoccludedTest(verts, view), i);
    assert FaceNumber(i) in refs <==> i in faces by {
      if i in faces {
        var k :| 0 <= k < |faces| && faces[k] == i;
        assert refs[k] == FaceNumber(i);
      }
    }
  }

  /**
   * For a list of `{index}` records, `visibleFaceFiltering` keeps a face iff
   * it is not back-facing and `depthMappingBVH` would keep it.
   */
  lemma {:induction false} VisibleRecordsAreFacingThenDepth(faces: seq<nat>, verts: nat -> seq<Vec3>, view: CameraView,
                                                            i: nat)
    ensures FaceRecord(i) in Filter(Records(faces), VisibleTest(verts, view)) <==>
              i in Filter(faces, NotBackFacingTest(verts, view)) &&
              i in Filter(faces, UnoccludedTest(verts, view))
  {
    var refs := Records(faces);
    FilterMembership(refs, VisibleTest(verts, view), FaceRecord(i));
    assert FaceRefIndex(FaceRecord(i)) == i;
    FilterMembership(faces, NotBackFacingTest(verts, view), i);
    FilterMembership(faces, UnoccludedTest(verts, view), i);
    assert FaceRecord(i) in refs <==> i in faces by {
      if i in faces {
        var k :| 0 <= k < |faces| && faces[k] == i;
        assert refs[k] == FaceRecord(i);
      }
    }
  }

  /**
   * Given no list, `visibleFaceFiltering` judges each face number by that
   * face's own vertices.
   */
  lemma {:induction false} DefaultListJudgedPerFace(g: Geometry, verts: nat -> seq<Vec3>, view: CameraView, i: nat)
    ensures FaceNumber(i) in Filter(RefsOrAll(None, g), VisibleTest(verts, view)) <==>
              i < FaceCount(g) && VisibleVertices(view, verts(i))
  {
    var refs := RefsOrAll(None, g);
    FilterMembership(refs, VisibleTest(verts, view), FaceNumber(i));
    assert FaceRefIndex(FaceNumber(i)) == i;
    if i < FaceCount(g) {
      assert refs[i] == FaceNumber(i);
    }
  }
}
