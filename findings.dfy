/**
 * Two places where src/toolbox/geomhelpers.js does not do what it evidently
 * means to, modelled exactly as written. The rest of the model
 * (module GeometryHelpers) uses the corrected behaviour.
 */
module GeometryHelpersAsWritten {
  import opened Wrappers
  import opened Sequences
  import opened GeometryHelpers

  // ---------------------------------------------------------------------
  // 1. Non-indexed face count

  /**
   * The face count as `getAllFaceIndices` and `frustumCulling` write it:
   * without an index buffer they divide the position attribute object, not
   * its count, by 3; the quotient is NaN and `0 < NaN` is false, so the loop
   * never runs.
   */
  function FaceCountAsWritten(g: Geometry): nat
  {
    match g.index
    case Some(indices) => IterationsBelow(|indices|, 3)
    case None => 0
  }

  /** The faces the as-written enumeration yields. */
  function AllFaceIndicesAsWritten(g: Geometry): seq<nat>
  {
    Range(FaceCountAsWritten(g))
  }

  /** With an index buffer the written count is the intended one. */
  lemma AsWrittenCountAgreesWhenIndexed(g: Geometry)
    requires g.index.Some?
    ensures AllFaceIndicesAsWritten(g) == Range(FaceCount(g))
  {
  }

  /**
   * A single non-indexed triangle (nine floats): the as-written enumeration
   * is empty, the corrected one is `[0]`.
   */
  lemma {:induction false} NonIndexedTriangleIsLost(p: seq<real>)
    requires |p| == 9
    ensures AllFaceIndicesAsWritten(Geometry(None, p)) == []
    ensures Range(FaceCount(Geometry(None, p))) == [0]
  {
    FaceCountOfWellFormed(Geometry(None, p), 1);
  }

  /**
   * Every pass that walks the as-written enumeration of a non-indexed mesh
   * (`frustumCulling`, and `getFacesFacingCamera` and `depthMappingBVH`
   * given no list) returns `[]`, whatever its test; so does
   * `visibleFaceFiltering` given no list.
   */
  lemma NonIndexedPassesAsWrittenAreEmpty(p: seq<real>, keep: nat -> bool,
                                          lookup: Option<nat> -> seq<Vec3>, view: CameraView)
    ensures Filter(AllFaceIndicesAsWritten(Geometry(None, p)), keep) == []
    ensures VisibleFaceFilteringAsWritten(None, Geometry(None, p), lookup, view) == []
  {
  }

  // ---------------------------------------------------------------------
  // 2. visibleFaceFiltering on its own default list

  /**
   * `faceIndex.index` as written: the field of a record, `undefined` for a
   * bare face number.
   */
  function RefIndexAsWritten(e: FaceRef): Option<nat>
  {
    match e
    case FaceNumber(_) => None
    case FaceRecord(index) => Some(index)
  }

  /** The test as written: the element's `.index` looked up, defined or not. */
  function VisibleTestAsWritten(lookup: Option<nat> -> seq<Vec3>, view: CameraView): FaceRef -> bool
  {
    e => VisibleVertices(view, lookup(RefIndexAsWritten(e)))
  }

  /** The default list as written: the bare numbers `getAllFaceIndices` returns. */
  function RefsOrAllAsWritten(faceRefs: Option<seq<FaceRef>>, g: Geometry): seq<FaceRef>
  {
    match faceRefs
    case Some(list) => list
    case None => FaceNumbers(Range(FaceCountAsWritten(g)))
  }

  /**
   * `visibleFaceFiltering` as written, with the vertex lookup as a parameter;
   * on a mesh `g` it is `FaceLookup(g, toPrecision)`.
   */
  function VisibleFaceFilteringAsWritten(faceRefs: Option<seq<FaceRef>>, g: Geometry,
                                         lookup: Option<nat> -> seq<Vec3>, view: CameraView): seq<FaceRef>
  {
    Filter(RefsOrAllAsWritten(faceRefs, g), VisibleTestAsWritten(lookup, view))
  }

  /**
   * Given no list, every element is a bare number whose `.index` is
   * undefined, so every face is judged by the same degenerate face: the
   * result is all faces or none, whatever the faces look like.
   */
  lemma {:induction false} DefaultListAllOrNothing(g: Geometry, lookup: Option<nat> -> seq<Vec3>, view: CameraView)
    ensures var r := VisibleFaceFilteringAsWritten(None, g, lookup, view);
            r == [] || r == RefsOrAllAsWritten(None, g)
  {
    var refs := RefsOrAllAsWritten(None, g);
    var verdict := VisibleVertices(view, lookup(None));
    forall k | 0 <= k < |refs|
      ensures VisibleTestAsWritten(lookup, view)(refs[k]) == verdict
    {
      assert refs[k].FaceNumber? by {
        assert refs == FaceNumbers(Range(FaceCountAsWritten(g)));
      }
      assert RefIndexAsWritten(refs[k]) == None;
    }
    FilterUniform(refs, VisibleTestAsWritten(lookup, view), verdict);
  }

  /** On a list of records, the as-written pass and the corrected one agree. */
  lemma {:induction false} AsWrittenAgreesOnRecords(refs: seq<FaceRef>, g: Geometry, lookup: Option<nat> -> seq<Vec3>,
                                                    verts: nat -> seq<Vec3>, view: CameraView)
    requires forall k :: 0 <= k < |refs| ==> refs[k].FaceRecord?
    requires forall i: nat :: lookup(Some(i)) == verts(i)
    ensures VisibleFaceFilteringAsWritten(Some(refs), g, lookup, view) == Filter(refs, VisibleTest(verts, view))
  {
    forall k | 0 <= k < |refs|
      ensures VisibleTestAsWritten(lookup, view)(refs[k]) == VisibleTest(verts, view)(refs[k])
    {
      assert RefIndexAsWritten(refs[k]) == Some(FaceRefIndex(refs[k]));
    }
    FilterCongruent(refs, VisibleTestAsWritten(lookup, view), VisibleTest(verts, view));
  }

  /** On a mesh's own vertex lookups, `AsWrittenAgreesOnRecords` applies. */
  lemma AsWrittenAgreesOnMeshRecords(refs: seq<FaceRef>, g: Geometry, view: CameraView,
                                     toPrecision: (real, nat) -> real)
    requires forall k :: 0 <= k < |refs| ==> refs[k].FaceRecord?
    ensures VisibleFaceFilteringAsWritten(Some(refs), g, FaceLookup(g, toPrecision), view) ==
              Filter(refs, VisibleTest(MeshVertices(g, toPrecision), view))
  {
    assert forall i: nat :: FaceLookup(g, toPrecision)(Some(i)) == MeshVertices(g, toPrecision)(i);
    AsWrittenAgreesOnRecords(refs, g, FaceLookup(g, toPrecision), MeshVertices(g, toPrecision), view);
  }

  /**
   * On `{index}` records, the pass as written keeps a face iff it is not
   * back-facing and `depthMappingBVH` would keep it.
   */
  lemma {:induction false} RecordsAsWrittenAreFacingThenDepth(faces: seq<nat>, g: Geometry, view: CameraView,
                                                              toPrecision: (real, nat) -> real, i: nat)
    ensures var verts := MeshVertices(g, toPrecision);
            FaceRecord(i) in VisibleFaceFilteringAsWritten(Some(Records(faces)), g, FaceLookup(g, toPrecision), view) <==>
              i in Filter(faces, NotBackFacingTest(verts, view)) &&
              i in Filter(faces, UnoccludedTest(verts, view))
  {
    var refs := Records(faces);
    assert forall k :: 0 <= k < |refs| ==> refs[k].FaceRecord?;
    AsWrittenAgreesOnMeshRecords(refs, g, view, toPrecision);
    VisibleRecordsAreFacingThenDepth(faces, MeshVertices(g, toPrecision), view, i);
  }

  /**
   * On an indexed mesh with one face that should pass (`shown`) and one that
   * should not (`hidden`), calling the pass with no list gives a different
   * result as written than intended.
   */
  lemma {:induction false} DefaultListDisagrees(g: Geometry, lookup: Option<nat> -> seq<Vec3>, verts: nat -> seq<Vec3>,
                                                view: CameraView, shown: nat, hidden: nat)
    requires g.index.Some?
    requires shown < FaceCount(g) && VisibleVertices(view, verts(shown))
    requires hidden < FaceCount(g) && !VisibleVertices(view, verts(hidden))
    ensures VisibleFaceFilteringAsWritten(None, g, lookup, view) != Filter(RefsOrAll(None, g), VisibleTest(verts, view))
  {
    var refs := RefsOrAll(None, g);
    assert RefsOrAllAsWritten(None, g) == refs;
    assert refs[shown] == FaceNumber(shown) && refs[hidden] == FaceNumber(hidden);
    assert FaceRefIndex(FaceNumber(shown)) == shown && FaceRefIndex(FaceNumber(hidden)) == hidden;
    FilterMembership(refs, VisibleTest(verts, view), FaceNumber(shown));
    FilterMembership(refs, VisibleTest(verts, view), FaceNumber(hidden));
    DefaultListAllOrNothing(g, lookup, view);
  }
}
