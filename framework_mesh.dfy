/** The renderer's indexed triangle mesh (framework/src/rendering/mesh.rs):
    a vertex list and a list of 16-bit vertex indices, three per triangle.
    Appending a mesh shifts its indices by the number of vertices already
    present, so that they keep pointing at their own vertices. */
module FrameworkMesh {

  /** `u16::MAX`. */
  const U16_MAX: nat := 0xFFFF

  /** A `u16` value. */
  type U16 = x: int | 0 <= x <= U16_MAX

  /** A triangle: `[u16; 3]`. */
  type Face = s: seq<U16> | |s| == 3 witness [0, 0, 0]

  /** `i + offset` on `u16`, wrapping around as a release build does. */
  function WrapAdd(i: U16, offset: nat): (r: U16)
    ensures i + offset <= U16_MAX ==> r == i + offset
  {
    (i + offset) % (U16_MAX + 1)
  }

  /** The three indices of one face, each shifted by `offset`. */
  function ShiftFace(face: Face, offset: nat): seq<U16>
  {
    seq(3, j requires 0 <= j < 3 => WrapAdd(face[j], offset))
  }

  /** The indices `push` appends for `faces`: the faces in order, three
      indices each, every one shifted by `offset`. */
  function ShiftedIndices(faces: seq<Face>, offset: nat): seq<U16>
    decreases |faces|
  {
    if faces == [] then []
    else ShiftedIndices(faces[..|faces| - 1], offset) + ShiftFace(faces[|faces| - 1], offset)
  }

  /** Index `3 * f + j` of the shifted list is index `j` of face `f`, shifted. */
  lemma {:induction false} ShiftedIndicesAt(faces: seq<Face>, offset: nat)
    ensures |ShiftedIndices(faces, offset)| == 3 * |faces|
    ensures forall f, j :: 0 <= f < |faces| && 0 <= j < 3 ==>
              ShiftedIndices(faces, offset)[3 * f + j] == WrapAdd(faces[f][j], offset)
    decreases |faces|
  {
    if faces != [] {
      var init := faces[..|faces| - 1];
      ShiftedIndicesAt(init, offset);
      forall f, j | 0 <= f < |faces| && 0 <= j < 3
        ensures ShiftedIndices(faces, offset)[3 * f + j] == WrapAdd(faces[f][j], offset)
      {
        if f < |init| {
          assert faces[f] == init[f];
        }
      }
    }
  }

  /** Every index is below `n`. */
  predicate IndicesBelow(indices: seq<U16>, n: nat)
  {
    forall k :: 0 <= k < |indices| ==> indices[k] < n
  }

  /** Every index of every face is below `n`. */
  predicate FacesBelow(faces: seq<Face>, n: nat)
  {
    forall f, j :: 0 <= f < |faces| && 0 <= j < 3 ==> faces[f][j] < n
  }

  /** Faces that index their own `n` vertices, shifted by `offset` with
      `offset + n` within `u16`, do not wrap and index the vertices placed
      after the first `offset`: every shifted index lies in `[offset, offset + n)`. */
  lemma ShiftedIndicesInRange(faces: seq<Face>, offset: nat, n: nat)
    requires FacesBelow(faces, n)
    requires offset + n <= U16_MAX
    ensures forall k :: 0 <= k < |ShiftedIndices(faces, offset)| ==>
              offset <= ShiftedIndices(faces, offset)[k] < offset + n
  {
    ShiftedIndicesAt(faces, offset);
    forall k | 0 <= k < |ShiftedIndices(faces, offset)|
      ensures offset <= ShiftedIndices(faces, offset)[k] < offset + n
    {
      var f, j := k / 3, k % 3;
      assert k == 3 * f + j;
    }
  }

  class Mesh<T> {
    var vertices: seq<T>
    var indices: seq<U16>

    /** `Mesh::new` and `Mesh::default`: no vertices and no indices. */
    constructor ()
      ensures vertices == [] && indices == []
    {
      vertices := [];
      indices := [];
    }

    /** `Mesh::push`: panics (`ok` false, nothing changed) unless the vertex
        count stays below `u16::MAX`; otherwise appends `vs` to the vertices
        and the faces' indices, shifted by the old vertex count, to the
        indices. A mesh whose indices all point at its vertices keeps that
        property when the pushed faces point at the pushed vertices. */
    method Push(vs: seq<T>, faces: seq<Face>) returns (ok: bool)
      modifies this
      ensures ok <==> |old(vertices)| + |vs| < U16_MAX
      ensures !ok ==> vertices == old(vertices) && indices == old(indices)
      ensures ok ==> vertices == old(vertices) + vs
      ensures ok ==> indices == old(indices) + ShiftedIndices(faces, |old(vertices)|)
      ensures ok && IndicesBelow(old(indices), |old(vertices)|) && FacesBelow(faces, |vs|) ==>
                IndicesBelow(indices, |vertices|)
    {
      ok := |vertices| + |vs| < U16_MAX;
      if !ok {
        return;
      }
      var offset := |vertices|;
      var i := 0;
      while i < |vs|
        invariant 0 <= i <= |vs|
        invariant vertices == old(vertices) + vs[..i]
        invariant indices == old(indices)
      {
        vertices := vertices + [vs[i]];
        i := i + 1;
      }
      assert vs[..|vs|] == vs;
      var f := 0;
      while f < |faces|
        invariant 0 <= f <= |faces|
        invariant vertices == old(vertices) + vs
        invariant indices == old(indices) + ShiftedIndices(faces[..f], offset)
      {
        var face := faces[f];
        var j := 0;
        while j < 3
          invariant 0 <= j <= 3
          invariant vertices == old(vertices) + vs
          invariant indices == old(indices) + ShiftedIndices(faces[..f], offset) + ShiftFace(face, offset)[..j]
        {
          indices := indices + [WrapAdd(face[j], offset)];
          j := j + 1;
        }
        assert faces[..f + 1][..f] == faces[..f];
        f := f + 1;
      }
      assert faces[..|faces|] == faces;
      if IndicesBelow(old(indices), offset) && FacesBelow(faces, |vs|) {
        ShiftedIndicesInRange(faces, offset, |vs|);
      }
    }
  }

  /** Pushing onto a mesh without vertices appends the faces' indices as
      they are, in face order. */
  lemma ShiftByZero(faces: seq<Face>)
    ensures |ShiftedIndices(faces, 0)| == 3 * |faces|
    ensures forall k :: 0 <= k < |ShiftedIndices(faces, 0)| ==>
              ShiftedIndices(faces, 0)[k] == faces[k / 3][k % 3]
  {
    ShiftedIndicesAt(faces, 0);
    forall k | 0 <= k < |ShiftedIndices(faces, 0)|
      ensures ShiftedIndices(faces, 0)[k] == faces[k / 3][k % 3]
    {
      assert k == 3 * (k / 3) + k % 3;
    }
  }
}
