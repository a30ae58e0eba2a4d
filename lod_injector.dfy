/**
 * `PMInjector`, the main-thread consumer of finished requests: responses are
 * queued as they arrive, and at the start of each frame every queued request
 * is injected into its mesh, replacing the mesh's LOD face lists.
 */
module LodInjector {
  import opened Common
  import opened LodTypes
  import opened LodEncoding
  import opened LodBake

  /**
   * The face-list entry `inject` creates for one generated buffer: it starts
   * at index 0, carries the buffer's count, and owns a hardware buffer,
   * 16-bit for 2-byte indices and 32-bit otherwise, filled with the
   * buffer's bytes, only when the count is not 0.
   */
  function Entry(b: IndexBuffer): (r: LodIndexData)
    requires WellFormedIndexBuffer(b)
    ensures r.indexStart == 0 && r.indexCount == b.indexCount
    ensures r.indexBuffer.Some? <==> b.indexCount != 0
    ensures r.indexBuffer.Some? ==>
              && r.indexBuffer.value.indexType.Width() == b.indexSize
              && r.indexBuffer.value.numIndexes == b.indexCount
              && |r.indexBuffer.value.contents| == b.indexCount * b.indexSize
              && DecodeIndices(r.indexBuffer.value.contents, b.indexSize) == DecodeIndices(b.bytes, b.indexSize)
  {
    if b.indexCount != 0 then
      var indexType := if b.indexSize == 2 then Index16 else Index32;
      var sizeInBytes := b.indexCount * indexType.Width();
      assert sizeInBytes == |b.bytes|;
      assert b.bytes[..sizeInBytes] == b.bytes;
      LodIndexData(0, b.indexCount, Some(HardwareIndexBuffer(indexType, b.indexCount, b.bytes[..sizeInBytes])))
    else
      LodIndexData(0, b.indexCount, None)
  }

  /** The face list of one submesh after injection: one entry per generated buffer, in order. */
  function FaceList(buffers: seq<IndexBuffer>): (r: seq<LodIndexData>)
    requires forall k :: 0 <= k < |buffers| ==> WellFormedIndexBuffer(buffers[k])
    ensures |r| == |buffers|
  {
    seq(|buffers|, k requires 0 <= k < |buffers| => Entry(buffers[k]))
  }

  /** A finished request can be injected: one entry per submesh of a valid mesh, all generated buffers well formed. */
  ghost predicate Injectable(request: PMGenRequest)
    reads request, request.mesh
  {
    && request.mesh.Valid()
    && |request.submesh| == |request.mesh.subMeshes|
    && forall i, k :: 0 <= i < |request.submesh| && 0 <= k < |request.submesh[i].genIndexBuffers| ==>
         WellFormedIndexBuffer(request.submesh[i].genIndexBuffers[k])
  }

  /** The request's results are what its mesh shows: each submesh's face list is one entry per generated buffer. */
  ghost predicate Installed(request: PMGenRequest)
    reads request, request.mesh
  {
    && Injectable(request)
    && |request.mesh.lodFaceLists| == |request.submesh|
    && forall i :: 0 <= i < |request.submesh| ==>
         request.mesh.lodFaceLists[i] == FaceList(request.submesh[i].genIndexBuffers)
  }

  /** No request queued in `queue[lo..k]` is for the same mesh as `queue[k]`. */
  predicate FirstForMesh(queue: seq<PMGenRequest>, lo: nat, k: nat)
    requires k < |queue|
  {
    forall j :: lo <= j < k ==> queue[j].mesh != queue[k].mesh
  }

  /**
   * A LOD baked by the worker and then injected: the entry counts the baked
   * indices, owns a hardware buffer unless the submesh had neither live
   * triangles nor vertices, and that buffer reads back as the live
   * triangles' ids (or the dummy triangle).
   */
  lemma InjectedBakedLod(sub: SubmeshInfo, shared: VertexBuffer, info: IndexBufferInfo, tris: seq<Triangle>, s: nat)
    requires IsIndexSize(sub.indexBuffer.indexSize)
    requires info.indexCount == |LiveIds(tris, s)|
    ensures WellFormedIndexBuffer(BakedLod(sub, shared, info, tris, s))
    ensures var e := Entry(BakedLod(sub, shared, info, tris, s));
            && e.indexCount == LodIndexCount(info.indexCount, HasVertices(sub, shared))
            && (e.indexBuffer.Some? <==> info.indexCount != 0 || HasVertices(sub, shared))
            && (e.indexBuffer.Some? ==>
                  DecodeIndices(e.indexBuffer.value.contents, sub.indexBuffer.indexSize)
                  == DecodeIndices(BakedLod(sub, shared, info, tris, s).bytes, sub.indexBuffer.indexSize))
  {
    BakedLodWellFormed(sub, shared, info, tris, s);
  }

  class PMInjector {
    /** Finished requests waiting for the next frame; the most recently queued is on top. */
    var readyLods: seq<PMGenRequest>
    /** Every request injected (and released) so far, in injection order. */
    ghost var injected: seq<PMGenRequest>

    constructor ()
      ensures readyLods == [] && injected == []
    {
      readyLods := [];
      injected := [];
    }

    /** `handleResponse`: queue a finished request. */
    method HandleResponse(request: PMGenRequest)
      modifies this`readyLods
      ensures readyLods == old(readyLods) + [request]
    {
      readyLods := readyLods + [request];
    }

    /**
     * `frameStarted`: inject every queued request, from the top of the queue
     * down, until the queue is empty; always lets the frame continue.
     */
    method FrameStarted() returns (continueRendering: bool)
      requires forall k :: 0 <= k < |readyLods| ==> Injectable(readyLods[k])
      modifies this, set k | 0 <= k < |readyLods| :: readyLods[k].mesh
      ensures continueRendering
      ensures readyLods == []
      ensures injected == old(injected) + Reversed(old(readyLods))
      ensures multiset(injected) == old(multiset(injected)) + old(multiset(readyLods))
      ensures forall k :: 0 <= k < |old(readyLods)| && FirstForMesh(old(readyLods), 0, k) ==> Installed(old(readyLods)[k])
    {
      ghost var queue := readyLods;
      while |readyLods| > 0
        invariant readyLods == queue[..|readyLods|]
        invariant injected == old(injected) + Reversed(queue[|readyLods|..])
        invariant forall k :: 0 <= k < |readyLods| ==> Injectable(readyLods[k])
        invariant forall k :: |readyLods| <= k < |queue| && FirstForMesh(queue, |readyLods|, k) ==> Installed(queue[k])
        decreases |readyLods|
      {
        var request := readyLods[|readyLods| - 1];
        var n := |readyLods| - 1;
        Inject(request);
        injected := injected + [request];
        readyLods := readyLods[..n];
        ReversedSnoc(queue, n);
        forall k | 0 <= k < n
          ensures Injectable(readyLods[k])
        {
          assert readyLods[k] == queue[k];
        }
        forall k | n <= k < |queue| && FirstForMesh(queue, n, k)
          ensures Installed(queue[k])
        {
          if k > n {
            assert queue[n].mesh != queue[k].mesh;
            assert FirstForMesh(queue, n + 1, k);
          }
        }
      }
      assert queue[0..] == queue;
      ReversedMultiset(queue);
      continueRendering := true;
    }

    /**
     * `inject`: drop the mesh's LOD levels, then give every submesh one
     * face-list entry per buffer the worker generated for it.
     */
    method Inject(request: PMGenRequest)
      requires Injectable(request)
      modifies request.mesh
      ensures Installed(request)
      ensures |request.mesh.lodFaceLists| == |request.submesh|
      ensures forall i :: 0 <= i < |request.submesh| ==>
                request.mesh.lodFaceLists[i] == FaceList(request.submesh[i].genIndexBuffers)
    {
      var mesh := request.mesh;
      var submeshCount := |request.submesh|;
      mesh.RemoveLodLevels();
      for i := 0 to submeshCount
        invariant mesh.Valid() && |mesh.lodFaceLists| == submeshCount
        invariant forall j :: 0 <= j < submeshCount ==>
                    mesh.lodFaceLists[j] == if j < i then FaceList(request.submesh[j].genIndexBuffers) else []
      {
        var buffers := request.submesh[i].genIndexBuffers;
        for k := 0 to |buffers|
          invariant mesh.Valid() && |mesh.lodFaceLists| == submeshCount
          invariant mesh.lodFaceLists[i] == FaceList(buffers[..k])
          invariant forall j :: 0 <= j < submeshCount && j != i ==>
                      mesh.lodFaceLists[j] == if j < i then FaceList(request.submesh[j].genIndexBuffers) else []
        {
          mesh.lodFaceLists := mesh.lodFaceLists[i := mesh.lodFaceLists[i] + [Entry(buffers[k])]];
        }
        assert buffers[..|buffers|] == buffers;
      }
    }
  }

  /** The elements of `s`, last first. */
  function Reversed<T>(s: seq<T>): (r: seq<T>)
    ensures |r| == |s|
    ensures forall k :: 0 <= k < |s| ==> r[k] == s[|s| - 1 - k]
  {
    if s == [] then [] else [s[|s| - 1]] + Reversed(s[..|s| - 1])
  }

  lemma ReversedSnoc<T>(s: seq<T>, n: nat)
    requires n < |s|
    ensures Reversed(s[n..]) == Reversed(s[n + 1..]) + [s[n]]
  {
  }

  /** Reversal keeps every element, with its multiplicity. */
  lemma {:induction false} ReversedMultiset<T>(s: seq<T>)
    ensures multiset(Reversed(s)) == multiset(s)
  {
    if s != [] {
      ReversedMultiset(s[..|s| - 1]);
      assert s == s[..|s| - 1] + [s[|s| - 1]];
    }
  }
}
