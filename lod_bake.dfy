/**
 * What `PMWorker::bakeLods` produces for one submesh: the index buffer of one
 * new LOD level, serialised from the triangles that survived simplification.
 */
module LodBake {
  import opened Common
  import opened LodTypes
  import opened LodEncoding

  /** The ids a triangle contributes to submesh `s`: its three vertex ids if it is live and owned by `s`. */
  function TriangleIds(t: Triangle, s: nat): (r: seq<u32>)
    ensures r == [] || r == t.vertexID
  {
    if !t.isRemoved && t.submeshID == s then t.vertexID else []
  }

  /** The vertex ids of the non-removed triangles of submesh `s`, in triangle-list order. */
  function LiveIds(tris: seq<Triangle>, s: nat): seq<u32>
  {
    if tris == [] then [] else LiveIds(tris[..|tris| - 1], s) + TriangleIds(tris[|tris| - 1], s)
  }

  /** The number of non-removed triangles of submesh `s`. */
  function LiveCount(tris: seq<Triangle>, s: nat): nat
  {
    if tris == [] then 0
    else LiveCount(tris[1..], s) + (if !tris[0].isRemoved && tris[0].submeshID == s then 1 else 0)
  }

  /** Serialising keeps triangle-list order: the ids of a concatenation are the concatenated ids. */
  lemma {:induction false} LiveIdsAppend(a: seq<Triangle>, b: seq<Triangle>, s: nat)
    ensures LiveIds(a + b, s) == LiveIds(a, s) + LiveIds(b, s)
    decreases |b|
  {
    if b == [] {
      assert a + b == a;
    } else {
      var b', t := b[..|b| - 1], TriangleIds(b[|b| - 1], s);
      assert (a + b)[..|a + b| - 1] == a + b';
      assert LiveIds(a + b, s) == LiveIds(a + b', s) + t;
      LiveIdsAppend(a, b', s);
      ConcatAssociative(LiveIds(a, s), LiveIds(b', s), t);
    }
  }

  /** Each live triangle of `s` contributes exactly three ids: the baked count is 3 × the live triangles. */
  lemma {:induction false} LiveIdsLength(tris: seq<Triangle>, s: nat)
    ensures |LiveIds(tris, s)| == 3 * LiveCount(tris, s)
    decreases |tris|
  {
    if tris != [] {
      LiveIdsAppend([tris[0]], tris[1..], s);
      assert [tris[0]] + tris[1..] == tris;
      assert [tris[0]][..0] == [];
      LiveIdsLength(tris[1..], s);
    }
  }

  /**
   * Where a triangle's ids land: a live triangle of `s` puts its three ids, in
   * order, between those of the triangles before and after it; a removed
   * triangle, or one of another submesh, puts nothing.
   */
  lemma LiveIdsAt(tris: seq<Triangle>, k: nat, s: nat)
    requires k < |tris|
    ensures LiveIds(tris, s) == LiveIds(tris[..k], s) + TriangleIds(tris[k], s) + LiveIds(tris[k + 1..], s)
  {
    var pre, post := tris[..k], tris[k + 1..];
    assert tris == (pre + [tris[k]]) + post;
    LiveIdsAppend(pre + [tris[k]], post, s);
    assert LiveIds(pre + [tris[k]], s) == LiveIds(pre, s) + TriangleIds(tris[k], s) by {
      assert (pre + [tris[k]])[..|pre|] == pre;
    }
  }

  /** Extending a prefix of the triangles by one adds that triangle's ids, if any. */
  lemma LiveIdsSnoc(tris: seq<Triangle>, t: nat, s: nat)
    requires t < |tris|
    ensures TriangleIds(tris[t], s) == [] ==> LiveIds(tris[..t + 1], s) == LiveIds(tris[..t], s)
    ensures TriangleIds(tris[t], s) != [] ==> LiveIds(tris[..t + 1], s) == LiveIds(tris[..t], s) + tris[t].vertexID
  {
    assert tris[..t + 1][..t] == tris[..t];
  }

  /** The ids of a prefix never outnumber those of the whole list. */
  lemma LiveIdsPrefixBound(tris: seq<Triangle>, i: nat, s: nat)
    requires i <= |tris|
    ensures |LiveIds(tris[..i], s)| <= |LiveIds(tris, s)|
  {
    assert tris == tris[..i] + tris[i..];
    LiveIdsAppend(tris[..i], tris[i..], s);
  }

  /** Whether the vertex buffer a submesh draws from (its own or the shared one) has vertices. */
  function HasVertices(sub: SubmeshInfo, shared: VertexBuffer): bool
  {
    if sub.useSharedVertexBuffer then shared.VertexCount() != 0 else sub.vertexBuffer.VertexCount() != 0
  }

  /** The index count recorded for a new LOD: the dummy triangle's 3 when nothing survived but vertices exist. */
  function LodIndexCount(indexCount: nat, hasVertices: bool): (r: nat)
    ensures indexCount != 0 ==> r == indexCount
    ensures indexCount == 0 ==> (r == 3 <==> hasVertices) && (r == 0 <==> !hasVertices)
  {
    if indexCount == 0 && hasVertices then 3 else indexCount
  }

  /** The index values a new LOD holds: the dummy triangle (three zeros), nothing, or the live triangles' ids. */
  function BakedIndices(tris: seq<Triangle>, s: nat, indexCount: nat, hasVertices: bool): seq<u32>
  {
    if indexCount == 0 then (if hasVertices then [0, 0, 0] else []) else LiveIds(tris, s)
  }

  /** The index buffer bakeLods appends to submesh `s` for the current LOD level. */
  function BakedLod(sub: SubmeshInfo, shared: VertexBuffer, info: IndexBufferInfo, tris: seq<Triangle>, s: nat): IndexBuffer
    requires IsIndexSize(sub.indexBuffer.indexSize)
  {
    var size := sub.indexBuffer.indexSize;
    var has := HasVertices(sub, shared);
    IndexBuffer(size, LodIndexCount(info.indexCount, has),
                EncodeIndices(BakedIndices(tris, s, info.indexCount, has), size))
  }

  /**
   * The baked buffer has the submesh's original index width and holds exactly
   * `indexCount` indices of that width.
   */
  lemma BakedLodWellFormed(sub: SubmeshInfo, shared: VertexBuffer, info: IndexBufferInfo, tris: seq<Triangle>, s: nat)
    requires IsIndexSize(sub.indexBuffer.indexSize)
    requires info.indexCount == |LiveIds(tris, s)|
    ensures BakedLod(sub, shared, info, tris, s).indexSize == sub.indexBuffer.indexSize
    ensures WellFormedIndexBuffer(BakedLod(sub, shared, info, tris, s))
    ensures info.indexCount != 0 ==> BakedLod(sub, shared, info, tris, s).indexCount == info.indexCount
  {
  }

  /**
   * Reading the baked buffer back gives the ids of the live triangles of the
   * submesh, in order and narrowed to the index width; when none survived, it
   * gives the dummy triangle if the submesh has vertices, and nothing otherwise.
   */
  lemma BakedLodContents(sub: SubmeshInfo, shared: VertexBuffer, info: IndexBufferInfo, tris: seq<Triangle>, s: nat)
    requires IsIndexSize(sub.indexBuffer.indexSize)
    requires info.indexCount == |LiveIds(tris, s)|
    ensures var b := BakedLod(sub, shared, info, tris, s);
            var ids := LiveIds(tris, s);
            && |b.bytes| % b.indexSize == 0
            && (info.indexCount != 0 ==>
                 |DecodeIndices(b.bytes, b.indexSize)| == |ids|
                 && forall k :: 0 <= k < |ids| ==> DecodeIndices(b.bytes, b.indexSize)[k] == Narrow(ids[k], b.indexSize))
            && (info.indexCount == 0 && HasVertices(sub, shared) ==> DecodeIndices(b.bytes, b.indexSize) == [0, 0, 0])
            && (info.indexCount == 0 && !HasVertices(sub, shared) ==> b.bytes == [] && b.indexCount == 0)
  {
    var size := sub.indexBuffer.indexSize;
    var has := HasVertices(sub, shared);
    var vs := BakedIndices(tris, s, info.indexCount, has);
    DecodeEncodeIndices(vs, size);
    var d := DecodeIndices(EncodeIndices(vs, size), size);
    if info.indexCount == 0 && has {
      assert d == [0, 0, 0] by {
        assert |d| == 3;
        assert forall k :: 0 <= k < 3 ==> d[k] == Narrow(0, size) == 0;
      }
    }
  }

  /**
   * The first pass of bakeLods for one submesh, as the code is written: the
   * bytes it allocates for the new LOD and the bytes of dummy triangle it
   * writes before the fill pass. The dummy is written whenever the index
   * count is 0, including when no vertices made it allocate nothing.
   */
  function CreatePassAsWritten(indexCount: nat, hasVertices: bool, indexSize: nat): (r: (nat, nat))
    ensures indexCount == 0 ==> r.1 == 3 * indexSize
  {
    (LodIndexCount(indexCount, hasVertices) * indexSize, if indexCount == 0 then 3 * indexSize else 0)
  }

  /** A submesh with no vertices and no indices: 0 bytes allocated, 6 (or 12) written. */
  lemma CreatePassOverflowsAsWritten()
    ensures CreatePassAsWritten(0, false, 2) == (0, 6)
    ensures CreatePassAsWritten(0, false, 4) == (0, 12)
  {
  }

  /**
   * The first pass with the dummy triangle written only when it was counted
   * (the intended behaviour, used by the worker): the allocation holds the
   * recorded index count, the bytes written never exceed it, and the dummy,
   * written exactly for an empty LOD of a submesh with vertices, fills it.
   */
  function CreatePass(indexCount: nat, hasVertices: bool, indexSize: nat): (r: (nat, nat))
    ensures r.1 <= r.0
    ensures r.0 == LodIndexCount(indexCount, hasVertices) * indexSize
    ensures r.1 != 0 ==> r.1 == r.0 == 3 * indexSize
    ensures indexSize > 0 ==> (r.1 != 0 <==> indexCount == 0 && hasVertices)
  {
    var lodCount := LodIndexCount(indexCount, hasVertices);
    (lodCount * indexSize, if indexCount == 0 && lodCount == 3 then 3 * indexSize else 0)
  }
}
