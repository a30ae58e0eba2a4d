/**
 * `PMWorker`, the background half of the queued progressive-mesh generator:
 * it sizes its containers, ingests the request's vertex buffers into a
 * position-deduplicated vertex list, records each submesh's index format, and
 * bakes the surviving triangles of each LOD level into new index buffers.
 */
module LodWorker {
  import opened Common
  import opened LodTypes
  import opened LodEncoding
  import opened VertexDedup
  import opened LodBake

  /** Whether one of the first `n` submeshes uses the shared vertex buffer. */
  function SharedBefore(subs: seq<SubmeshInfo>, n: nat): bool
    requires n <= |subs|
  {
    n > 0 && (subs[n - 1].useSharedVertexBuffer || SharedBefore(subs, n - 1))
  }

  /**
   * The positions that ingesting submesh `j` feeds into deduplication: its own
   * vertices, the shared vertices if no earlier submesh used them, or nothing.
   */
  function Contribution(subs: seq<SubmeshInfo>, shared: VertexBuffer, j: nat): seq<Position>
    requires j < |subs|
  {
    if !subs[j].useSharedVertexBuffer then subs[j].vertexBuffer.positions
    else if SharedBefore(subs, j) then []
    else shared.positions
  }

  /** All positions ingested for the first `n` submeshes, in ingestion order. */
  function IngestedUpTo(subs: seq<SubmeshInfo>, shared: VertexBuffer, n: nat): seq<Position>
    requires n <= |subs|
  {
    if n == 0 then [] else IngestedUpTo(subs, shared, n - 1) + Contribution(subs, shared, n - 1)
  }

  /** All positions a request feeds into deduplication, in ingestion order. */
  function IngestionOrder(subs: seq<SubmeshInfo>, shared: VertexBuffer): seq<Position>
  {
    IngestedUpTo(subs, shared, |subs|)
  }

  /** The vertex count of the submeshes among the first `n` that have their own vertex buffer. */
  function PrivateVertexTotal(subs: seq<SubmeshInfo>, n: nat): nat
    requires n <= |subs|
  {
    if n == 0 then 0
    else PrivateVertexTotal(subs, n - 1)
         + (if subs[n - 1].useSharedVertexBuffer then 0 else subs[n - 1].vertexBuffer.VertexCount())
  }

  /**
   * The shared vertex buffer is ingested at most once: however many submeshes
   * share it, it adds its vertex count once to the private vertex counts.
   */
  lemma {:induction false} IngestedCount(subs: seq<SubmeshInfo>, shared: VertexBuffer, n: nat)
    requires n <= |subs|
    ensures |IngestedUpTo(subs, shared, n)|
         == PrivateVertexTotal(subs, n) + (if SharedBefore(subs, n) then shared.VertexCount() else 0)
  {
    if n > 0 {
      IngestedCount(subs, shared, n - 1);
    }
  }

  /** The largest vertex count among the first `n` submeshes with their own vertex buffer. */
  function MaxPrivateCount(subs: seq<SubmeshInfo>, n: nat): (r: nat)
    requires n <= |subs|
    ensures forall j :: 0 <= j < n && !subs[j].useSharedVertexBuffer ==> subs[j].vertexBuffer.VertexCount() <= r
  {
    if n == 0 then 0
    else
      var m := MaxPrivateCount(subs, n - 1);
      var c := subs[n - 1].vertexBuffer.VertexCount();
      if !subs[n - 1].useSharedVertexBuffer && c > m then c else m
  }

  function Max(a: nat, b: nat): nat { if a < b then b else a }

  /** The index values of a baked LOD before the live triangles: the dummy triangle or nothing. */
  function DummyIds(indexCount: nat, hasVertices: bool): (r: seq<u32>)
    ensures |r| == (if indexCount == 0 && hasVertices then 3 else 0)
  {
    if indexCount == 0 && hasVertices then [0, 0, 0] else []
  }

  /** A baked buffer that holds the narrowed values of `vs` has the bytes of `vs`. */
  lemma {:induction false} EncodeNarrowed(xs: seq<u32>, vs: seq<u32>, indexSize: nat)
    requires IsIndexSize(indexSize)
    requires |xs| == |vs|
    requires forall k :: 0 <= k < |xs| ==> xs[k] == Narrow(vs[k], indexSize)
    ensures EncodeIndices(xs, indexSize) == EncodeIndices(vs, indexSize)
    decreases |xs|
  {
    if xs != [] {
      EncodeNarrowed(xs[..|xs| - 1], vs[..|vs| - 1], indexSize);
    }
  }

  /** `buffer[..cursor]` holds the values `ids`, narrowed to the index width. */
  ghost predicate Holds(buffer: array<u32>, cursor: nat, ids: seq<u32>, indexSize: nat)
    reads buffer
  {
    && cursor == |ids| <= buffer.Length
    && forall k :: 0 <= k < |ids| ==> buffer[k] == Narrow(ids[k], indexSize)
  }

  /**
   * Stores `ids`, narrowed to the index width, at `cursor`, `cursor + 1`, ...
   * of an index buffer: the writes through the advancing index pointer.
   */
  method WriteIds(buffer: array<u32>, cursor: nat, ids: seq<u32>, indexSize: nat, ghost written: seq<u32>)
    requires Holds(buffer, cursor, written, indexSize)
    requires cursor + |ids| <= buffer.Length
    modifies buffer
    ensures Holds(buffer, cursor + |ids|, written + ids, indexSize)
  {
    for m := 0 to |ids|
      invariant Holds(buffer, cursor + m, written + ids[..m], indexSize)
    {
      buffer[cursor + m] := Narrow(ids[m], indexSize);
      assert written + ids[..m + 1] == (written + ids[..m]) + [ids[m]];
    }
    assert ids[..|ids|] == ids;
  }

  /** No two of the buffers are the same array. */
  ghost predicate Distinct(buffers: seq<array<u32>>)
  {
    forall j, k :: 0 <= j < k < |buffers| ==> buffers[j] != buffers[k]
  }

  /**
   * The new LOD buffer of submesh `s` after the triangles `tris`: sized for
   * the LOD, holding the dummy triangle (if counted) and then the ids of the
   * live triangles of `s` among `tris`.
   */
  ghost predicate LodBuffer(buffer: array<u32>, cursor: nat, sub: SubmeshInfo, shared: VertexBuffer,
                            info: IndexBufferInfo, tris: seq<Triangle>, s: nat)
    reads buffer
  {
    && buffer.Length == LodIndexCount(info.indexCount, HasVertices(sub, shared))
    && Holds(buffer, cursor, DummyIds(info.indexCount, HasVertices(sub, shared)) + LiveIds(tris, s), info.indexSize)
  }

  /** The state of the bake after the triangles `tris`: one buffer per submesh. */
  ghost predicate Baking(buffers: seq<array<u32>>, cursors: seq<nat>, subs: seq<SubmeshInfo>, shared: VertexBuffer,
                         infos: seq<IndexBufferInfo>, tris: seq<Triangle>)
    reads set j | 0 <= j < |buffers| :: buffers[j]
  {
    && |buffers| == |cursors| == |subs| == |infos|
    && forall j :: 0 <= j < |buffers| ==> LodBuffer(buffers[j], cursors[j], subs[j], shared, infos[j], tris, j)
  }

  /** The first pass of `bakeLods`: allocate every submesh's new LOD and write the dummy triangle where counted. */
  method CreateBuffers(subs: seq<SubmeshInfo>, shared: VertexBuffer, infos: seq<IndexBufferInfo>)
    returns (buffers: seq<array<u32>>, cursors: seq<nat>)
    requires |infos| == |subs|
    requires forall i :: 0 <= i < |infos| ==> IsIndexSize(infos[i].indexSize)
    ensures Distinct(buffers) && forall j :: 0 <= j < |buffers| ==> fresh(buffers[j])
    ensures Baking(buffers, cursors, subs, shared, infos, [])
  {
    buffers, cursors := [], [];
    for i := 0 to |subs|
      invariant |buffers| == |cursors| == i
      invariant Distinct(buffers) && forall j :: 0 <= j < i ==> fresh(buffers[j])
      invariant forall j :: 0 <= j < i ==> LodBuffer(buffers[j], cursors[j], subs[j], shared, infos[j], [], j)
    {
      var indexCount := infos[i].indexCount;
      var size := infos[i].indexSize;
      var pass := CreatePass(indexCount, HasVertices(subs[i], shared), size);
      var buffer := new u32[pass.0 / size];
      var cursor := 0;
      if pass.1 != 0 {
        // Nothing survived but the submesh has vertices: a degenerate triangle keeps the LOD non-empty.
        WriteIds(buffer, 0, [0, 0, 0], size, []);
        cursor := 3;
      }
      assert LodBuffer(buffer, cursor, subs[i], shared, infos[i], [], i);
      buffers, cursors := buffers + [buffer], cursors + [cursor];
    }
  }

  /** The second pass of `bakeLods`: every live triangle writes its ids into its submesh's buffer, in list order. */
  method FillBuffers(buffers: seq<array<u32>>, cursors: seq<nat>, subs: seq<SubmeshInfo>, shared: VertexBuffer,
                     infos: seq<IndexBufferInfo>, tris: seq<Triangle>)
    returns (filled: seq<nat>)
    requires Distinct(buffers) && Baking(buffers, cursors, subs, shared, infos, [])
    requires forall t :: 0 <= t < |tris| ==> tris[t].submeshID < |subs|
    requires forall i :: 0 <= i < |subs| ==> infos[i].indexCount == |LiveIds(tris, i)|
    modifies set j | 0 <= j < |buffers| :: buffers[j]
    ensures Baking(buffers, filled, subs, shared, infos, tris)
  {
    filled := cursors;
    for t := 0 to |tris|
      invariant Baking(buffers, filled, subs, shared, infos, tris[..t])
    {
      var triangle := tris[t];
      forall j | 0 <= j < |subs| {
        LiveIdsSnoc(tris, t, j);
      }
      if !triangle.isRemoved {
        var s := triangle.submeshID;
        LiveIdsPrefixBound(tris, t + 1, s);
        ghost var dummy := DummyIds(infos[s].indexCount, HasVertices(subs[s], shared));
        WriteIds(buffers[s], filled[s], triangle.vertexID, infos[s].indexSize, dummy + LiveIds(tris[..t], s));
        filled := filled[s := filled[s] + 3];
        ConcatAssociative(dummy, LiveIds(tris[..t], s), triangle.vertexID);
      }
    }
    assert tris[..|tris|] == tris;
  }

  /**
   * The end of `bakeLods`: every submesh's filled buffer becomes its new LOD
   * index buffer, appended after the LODs it already had.
   */
  method HandOver(buffers: seq<array<u32>>, cursors: seq<nat>, subs: seq<SubmeshInfo>, shared: VertexBuffer,
                  infos: seq<IndexBufferInfo>, tris: seq<Triangle>)
    returns (newSubs: seq<SubmeshInfo>)
    requires Baking(buffers, cursors, subs, shared, infos, tris)
    requires forall i :: 0 <= i < |subs| ==>
               IsIndexSize(subs[i].indexBuffer.indexSize) && infos[i].indexSize == subs[i].indexBuffer.indexSize
               && infos[i].indexCount == |LiveIds(tris, i)|
    ensures |newSubs| == |subs|
    ensures forall j :: 0 <= j < |subs| ==>
              newSubs[j] == subs[j].(genIndexBuffers := subs[j].genIndexBuffers + [BakedLod(subs[j], shared, infos[j], tris, j)])
  {
    newSubs := subs;
    for i := 0 to |subs|
      invariant |newSubs| == |subs|
      invariant forall j :: 0 <= j < |subs| ==>
                  newSubs[j] == if j < i then subs[j].(genIndexBuffers := subs[j].genIndexBuffers
                                   + [BakedLod(subs[j], shared, infos[j], tris, j)])
                                else subs[j]
    {
      var size := infos[i].indexSize;
      var has := HasVertices(subs[i], shared);
      var ids := BakedIndices(tris, i, infos[i].indexCount, has);
      assert DummyIds(infos[i].indexCount, has) + LiveIds(tris, i) == ids;
      assert LodBuffer(buffers[i], cursors[i], subs[i], shared, infos[i], tris, i);
      EncodeNarrowed(buffers[i][..], ids, size);
      var lod := IndexBuffer(subs[i].indexBuffer.indexSize, LodIndexCount(infos[i].indexCount, has),
                             EncodeIndices(buffers[i][..], size));
      newSubs := newSubs[i := newSubs[i].(genIndexBuffers := newSubs[i].genIndexBuffers + [lod])];
    }
  }

  class PMWorker {
    /** `mRequest`: the request being processed. */
    var request: PMGenRequest?
    /** `mVertexList`: the deduplicated vertices. */
    var vertexList: seq<Vertex>
    /** `mUniqueVertexSet`: the position of each vertex in the list, keyed by position. */
    var uniqueVertexSet: map<Position, nat>
    /** `mVertexLookup`: vertex-list position of each vertex of the last private vertex buffer. */
    var vertexLookup: seq<nat>
    /** `mSharedVertexLookup`: vertex-list position of each vertex of the shared vertex buffer. */
    var sharedVertexLookup: seq<nat>
    /** `mIndexBufferInfoList`: index width and current index count of every submesh. */
    var indexBufferInfoList: seq<IndexBufferInfo>
    /** `mTriangleList`: the simplifier's triangles, filled and updated by the simplification. */
    var triangleList: seq<Triangle>
    /** The capacities reserved by `tuneContainerSize`. */
    var vertexCapacity: nat
    var vertexLookupCapacity: nat
    var sharedVertexLookupCapacity: nat

    /** Every position ingested so far, in order, duplicates included. */
    ghost var ingested: seq<Position>
    /** The largest size the vertex list has had since the containers were last cleared. */
    ghost var peakVertexCount: nat

    /**
     * The vertex list is what ingesting the positions seen so far one by one
     * produces (see `DedupVerticesSpec` for what that list holds), and it never
     * outgrew the ingested count.
     */
    ghost predicate Deduplicated()
      reads this`vertexList, this`ingested, this`peakVertexCount
    {
      vertexList == DedupVertices(ingested) && peakVertexCount <= |ingested|
    }

    /** The unique-vertex set maps the position of every vertex in the list, and nothing else, to that vertex. */
    ghost predicate Indexed()
      reads this`vertexList, this`uniqueVertexSet
    {
      && (forall p :: p in uniqueVertexSet ==>
            uniqueVertexSet[p] < |vertexList| && vertexList[uniqueVertexSet[p]].position == p)
      && (forall i :: 0 <= i < |vertexList| ==>
            vertexList[i].position in uniqueVertexSet && uniqueVertexSet[vertexList[i].position] == i)
    }

    /** `lookup` has one entry per position, in order, naming the canonical vertex of that position. */
    ghost predicate Resolves(lookup: seq<nat>, positions: seq<Position>)
      reads this`uniqueVertexSet
    {
      && |lookup| == |positions|
      && forall k :: 0 <= k < |lookup| ==>
           positions[k] in uniqueVertexSet && lookup[k] == uniqueVertexSet[positions[k]]
    }

    constructor ()
      ensures request == null && Deduplicated() && Indexed()
      ensures vertexList == [] && ingested == [] && uniqueVertexSet == map[]
      ensures vertexLookup == [] && sharedVertexLookup == [] && indexBufferInfoList == [] && triangleList == []
    {
      request := null;
      vertexList := [];
      uniqueVertexSet := map[];
      vertexLookup := [];
      sharedVertexLookup := [];
      indexBufferInfoList := [];
      triangleList := [];
      vertexCapacity, vertexLookupCapacity, sharedVertexLookupCapacity := 0, 0, 0;
      ingested := [];
      peakVertexCount := 0;
    }

    /**
     * `buildRequest` up to the collapse-cost computation: adopt the request,
     * clear the containers, size them, and ingest the request's buffers. The
     * vertex list never grows past the capacity reserved for it, so the
     * pointers to its vertices held by the set and the lookups stay valid.
     */
    method BuildRequest(req: PMGenRequest)
      requires forall i :: 0 <= i < |req.submesh| ==> WellFormedIndexBuffer(req.submesh[i].indexBuffer)
      modifies this
      ensures request == req && Deduplicated()
      ensures ingested == IngestionOrder(req.submesh, req.sharedVertexBuffer)
      ensures peakVertexCount <= vertexCapacity
      ensures uniqueVertexSet == map[] && vertexLookup == [] && sharedVertexLookup == []
      ensures |indexBufferInfoList| == |req.submesh|
      ensures forall i :: 0 <= i < |req.submesh| ==>
                indexBufferInfoList[i] == IndexBufferInfo(req.submesh[i].indexBuffer.indexSize, req.submesh[i].indexBuffer.indexCount)
    {
      request := req;
      CleanupMemory();
      TuneContainerSize();
      Initialize();
    }

    /** The containers are emptied; what they reserved stays reserved. */
    method CleanupMemory()
      modifies this
      ensures Deduplicated() && Indexed()
      ensures ingested == [] && vertexList == [] && uniqueVertexSet == map[]
      ensures vertexLookup == [] && sharedVertexLookup == [] && indexBufferInfoList == [] && triangleList == []
      ensures unchanged(this`request, this`vertexCapacity, this`vertexLookupCapacity, this`sharedVertexLookupCapacity)
    {
      vertexList := [];
      uniqueVertexSet := map[];
      vertexLookup := [];
      sharedVertexLookup := [];
      indexBufferInfoList := [];
      triangleList := [];
      ingested := [];
      peakVertexCount := 0;
    }

    /**
     * `tuneContainerSize`: reserve room for every vertex that ingestion can
     * push (each private buffer, plus the shared buffer once), for the largest
     * private lookup and for the shared lookup, and make one index-buffer
     * record per submesh.
     */
    method TuneContainerSize()
      requires request != null
      modifies this`vertexCapacity, this`vertexLookupCapacity, this`sharedVertexLookupCapacity, this`indexBufferInfoList
      ensures vertexCapacity == Max(old(vertexCapacity), |IngestionOrder(request.submesh, request.sharedVertexBuffer)|)
      ensures vertexLookupCapacity == Max(old(vertexLookupCapacity), MaxPrivateCount(request.submesh, |request.submesh|))
      ensures sharedVertexLookupCapacity
           == Max(old(sharedVertexLookupCapacity),
                  if SharedBefore(request.submesh, |request.submesh|) then request.sharedVertexBuffer.VertexCount() else 0)
      ensures indexBufferInfoList == Resize(old(indexBufferInfoList), |request.submesh|, IndexBufferInfo(0, 0))
    {
      var subs := request.submesh;
      var shared := request.sharedVertexBuffer;
      var sharedVerticesAdded := false;
      var vertexCount := 0;
      var vertexLookupSize := 0;
      var sharedVertexLookupSize := 0;
      for i := 0 to |subs|
        invariant sharedVerticesAdded == SharedBefore(subs, i)
        invariant vertexCount == |IngestedUpTo(subs, shared, i)|
        invariant vertexLookupSize == MaxPrivateCount(subs, i)
        invariant sharedVertexLookupSize == if sharedVerticesAdded then shared.VertexCount() else 0
      {
        var submesh := subs[i];
        if !submesh.useSharedVertexBuffer {
          var count := submesh.vertexBuffer.VertexCount();
          vertexLookupSize := Max(vertexLookupSize, count);
          vertexCount := vertexCount + count;
        } else if !sharedVerticesAdded {
          sharedVerticesAdded := true;
          sharedVertexLookupSize := shared.VertexCount();
          vertexCount := vertexCount + sharedVertexLookupSize;
        }
      }
      vertexCapacity := Max(vertexCapacity, vertexCount);
      sharedVertexLookupCapacity := Max(sharedVertexLookupCapacity, sharedVertexLookupSize);
      vertexLookupCapacity := Max(vertexLookupCapacity, vertexLookupSize);
      indexBufferInfoList := Resize(indexBufferInfoList, |subs|, IndexBufferInfo(0, 0));
    }

    /**
     * `initialize`: ingest every submesh's vertex buffer (the shared one only
     * the first time) and record its index buffer, then drop the set and the
     * lookups, which only ingestion needs.
     */
    method Initialize()
      requires request != null
      requires Deduplicated() && Indexed()
      requires sharedVertexLookup == []
      requires |indexBufferInfoList| == |request.submesh|
      requires forall i :: 0 <= i < |request.submesh| ==> WellFormedIndexBuffer(request.submesh[i].indexBuffer)
      modifies this`vertexList, this`uniqueVertexSet, this`vertexLookup, this`sharedVertexLookup,
               this`indexBufferInfoList, this`ingested, this`peakVertexCount
      ensures Deduplicated()
      ensures ingested == old(ingested) + IngestionOrder(request.submesh, request.sharedVertexBuffer)
      ensures uniqueVertexSet == map[] && vertexLookup == [] && sharedVertexLookup == []
      ensures |indexBufferInfoList| == |request.submesh|
      ensures forall i :: 0 <= i < |request.submesh| ==>
                indexBufferInfoList[i] == IndexBufferInfo(request.submesh[i].indexBuffer.indexSize, request.submesh[i].indexBuffer.indexCount)
    {
      IngestSubmeshes(request.submesh, request.sharedVertexBuffer);
      sharedVertexLookup := [];
      vertexLookup := [];
      uniqueVertexSet := map[];
    }

    /** The loop of `initialize`: every submesh in turn ingests its vertices and records its index buffer. */
    method IngestSubmeshes(subs: seq<SubmeshInfo>, shared: VertexBuffer)
      requires Deduplicated() && Indexed() && sharedVertexLookup == []
      requires |indexBufferInfoList| == |subs|
      requires forall i :: 0 <= i < |subs| ==> WellFormedIndexBuffer(subs[i].indexBuffer)
      modifies this`vertexList, this`uniqueVertexSet, this`vertexLookup, this`sharedVertexLookup,
               this`indexBufferInfoList, this`ingested, this`peakVertexCount
      ensures Deduplicated()
      ensures ingested == old(ingested) + IngestionOrder(subs, shared)
      ensures |indexBufferInfoList| == |subs|
      ensures forall i :: 0 <= i < |subs| ==>
                indexBufferInfoList[i] == IndexBufferInfo(subs[i].indexBuffer.indexSize, subs[i].indexBuffer.indexCount)
    {
      for i := 0 to |subs|
        invariant Deduplicated() && Indexed() && SharedLookupAt(subs, shared, i)
        invariant ingested == old(ingested) + IngestedUpTo(subs, shared, i)
        invariant |indexBufferInfoList| == |subs|
        invariant forall j :: 0 <= j < i ==>
                    indexBufferInfoList[j] == IndexBufferInfo(subs[j].indexBuffer.indexSize, subs[j].indexBuffer.indexCount)
      {
        IngestSubmesh(subs, shared, i);
        ConcatAssociative(old(ingested), IngestedUpTo(subs, shared, i), Contribution(subs, shared, i));
        AddIndexBuffer(subs[i].indexBuffer, subs[i].useSharedVertexBuffer, i);
      }
    }

    /** Where the shared lookup stands after `n` submeshes: filled once one of them used the shared buffer. */
    ghost predicate SharedLookupAt(subs: seq<SubmeshInfo>, shared: VertexBuffer, n: nat)
      requires n <= |subs|
      reads this`uniqueVertexSet, this`sharedVertexLookup
    {
      && (SharedBefore(subs, n) ==> Resolves(sharedVertexLookup, shared.positions))
      && (!SharedBefore(subs, n) ==> sharedVertexLookup == [])
    }

    /** The vertex half of one iteration of `initialize`'s loop: submesh `i` adds its contribution. */
    method IngestSubmesh(subs: seq<SubmeshInfo>, shared: VertexBuffer, i: nat)
      requires i < |subs|
      requires Deduplicated() && Indexed() && SharedLookupAt(subs, shared, i)
      modifies this`vertexList, this`uniqueVertexSet, this`vertexLookup, this`sharedVertexLookup,
               this`ingested, this`peakVertexCount
      ensures Deduplicated() && Indexed() && SharedLookupAt(subs, shared, i + 1)
      ensures ingested == old(ingested) + Contribution(subs, shared, i)
    {
      var submesh := subs[i];
      var vertexBuffer := if submesh.useSharedVertexBuffer then shared else submesh.vertexBuffer;
      AddVertexBuffer(vertexBuffer, submesh.useSharedVertexBuffer);
      if submesh.useSharedVertexBuffer && SharedBefore(subs, i) && old(sharedVertexLookup) == [] {
        assert |shared.positions| == 0;
      }
    }

    /**
     * `addVertexBuffer`: unless it is the shared buffer and that was already
     * ingested, push every vertex, keep it only if its position is new (as a
     * non-seam vertex), otherwise pop it again and mark the existing vertex of
     * that position as a seam. The lookup used gets one entry per input vertex.
     */
    method AddVertexBuffer(vertexBuffer: VertexBuffer, useSharedVertexLookup: bool)
      requires Deduplicated() && Indexed()
      modifies this`vertexList, this`uniqueVertexSet, this`vertexLookup, this`sharedVertexLookup,
               this`ingested, this`peakVertexCount
      ensures Deduplicated() && Indexed()
      ensures forall p :: p in old(uniqueVertexSet) ==> p in uniqueVertexSet && uniqueVertexSet[p] == old(uniqueVertexSet)[p]
      ensures useSharedVertexLookup && old(sharedVertexLookup) != [] ==>
                unchanged(this`vertexList, this`uniqueVertexSet, this`vertexLookup, this`sharedVertexLookup, this`ingested)
      ensures !(useSharedVertexLookup && old(sharedVertexLookup) != []) ==>
                && ingested == old(ingested) + vertexBuffer.positions
                && |vertexList| == |old(vertexList)| + |Elems(vertexBuffer.positions) - Elems(old(ingested))|
                && (useSharedVertexLookup ==>
                      Resolves(sharedVertexLookup, vertexBuffer.positions) && vertexLookup == old(vertexLookup))
                && (!useSharedVertexLookup ==>
                      Resolves(vertexLookup, vertexBuffer.positions) && sharedVertexLookup == old(sharedVertexLookup))
    {
      if useSharedVertexLookup && sharedVertexLookup != [] {
        return; // The shared vertex buffer is already loaded.
      }
      var lookup := IngestPositions(vertexBuffer.positions);
      DedupVerticesSpec(old(ingested));
      DedupVerticesSpec(ingested);
      DedupGrowth(old(ingested), vertexBuffer.positions);
      if useSharedVertexLookup {
        sharedVertexLookup := lookup;
      } else {
        vertexLookup := lookup;
      }
    }

    /** The loop of `addVertexBuffer`: every position goes through `AddVertex`, and the lookup records where it landed. */
    method IngestPositions(positions: seq<Position>) returns (lookup: seq<nat>)
      requires Deduplicated() && Indexed()
      modifies this`vertexList, this`uniqueVertexSet, this`ingested, this`peakVertexCount
      ensures Deduplicated() && Indexed()
      ensures ingested == old(ingested) + positions
      ensures Resolves(lookup, positions)
      ensures forall p :: p in old(uniqueVertexSet) ==> p in uniqueVertexSet && uniqueVertexSet[p] == old(uniqueVertexSet)[p]
    {
      lookup := [];
      for k := 0 to |positions|
        invariant Deduplicated() && Indexed()
        invariant ingested == old(ingested) + positions[..k]
        invariant |lookup| == k
        invariant forall j :: 0 <= j < k ==> positions[j] in uniqueVertexSet && lookup[j] == uniqueVertexSet[positions[j]]
        invariant forall p :: p in old(uniqueVertexSet) ==> p in uniqueVertexSet && uniqueVertexSet[p] == old(uniqueVertexSet)[p]
      {
        ghost var before := uniqueVertexSet;
        var v := AddVertex(positions[k]);
        lookup := lookup + [v];
        forall j | 0 <= j <= k
          ensures positions[j] in uniqueVertexSet && lookup[j] == uniqueVertexSet[positions[j]]
        {
          if j < k {
            assert positions[j] in before && lookup[j] == before[positions[j]];
          }
        }
        assert positions[..k + 1] == positions[..k] + [positions[k]];
      }
      assert positions[..|positions|] == positions;
    }

    /**
     * One step of `addVertexBuffer`'s loop: push the vertex; if its position
     * is already in the set, pop it again and mark the vertex holding that
     * position as a seam. Returns the position of the vertex now holding `p`.
     */
    method AddVertex(p: Position) returns (v: nat)
      requires Deduplicated() && Indexed()
      modifies this`vertexList, this`uniqueVertexSet, this`ingested, this`peakVertexCount
      ensures Deduplicated() && Indexed()
      ensures ingested == old(ingested) + [p]
      ensures p in uniqueVertexSet && v == uniqueVertexSet[p]
      ensures old(p in uniqueVertexSet) <==> |vertexList| == |old(vertexList)|
      ensures forall q :: q in old(uniqueVertexSet) ==> q in uniqueVertexSet && uniqueVertexSet[q] == old(uniqueVertexSet)[q]
    {
      ghost var seen := ingested;
      DedupVerticesLength(seen);
      ghost var found := FindVertex(vertexList, p);
      vertexList := vertexList + [Vertex(p, false)];
      peakVertexCount := Max(peakVertexCount, |vertexList|);
      ingested := seen + [p];
      assert ingested[..|ingested| - 1] == seen;
      if p in uniqueVertexSet {
        // The position already exists: drop the new vertex, mark the existing one.
        vertexList := vertexList[..|vertexList| - 1];
        v := uniqueVertexSet[p];
        assert found == v;
        vertexList := vertexList[v := vertexList[v].(seam := true)];
      } else {
        v := |vertexList| - 1;
        assert found == v;
        uniqueVertexSet := uniqueVertexSet[p := v];
      }
    }

    /**
     * `addIndexBuffer`: record the index width and count of submesh
     * `submeshID`. The triangles built from the buffer through the lookup
     * are produced by the simplifier's base class, outside this model.
     */
    method AddIndexBuffer(indexBuffer: IndexBuffer, useSharedVertexLookup: bool, submeshID: nat)
      requires submeshID < |indexBufferInfoList|
      requires WellFormedIndexBuffer(indexBuffer)
      modifies this`indexBufferInfoList
      ensures indexBufferInfoList
           == old(indexBufferInfoList)[submeshID := IndexBufferInfo(indexBuffer.indexSize, indexBuffer.indexCount)]
    {
      var isize := indexBuffer.indexSize;
      indexBufferInfoList := indexBufferInfoList[submeshID := indexBufferInfoList[submeshID].(indexSize := isize)];
      indexBufferInfoList := indexBufferInfoList[submeshID := indexBufferInfoList[submeshID].(indexCount := indexBuffer.indexCount)];
    }

    /**
     * What bakeLods needs of the state the simplification leaves: one record
     * per submesh agreeing with the request's index width, triangles owned by
     * existing submeshes, and each submesh's index count equal to three times
     * its live triangles.
     */
    ghost predicate ReadyToBake()
      reads this, request
    {
      && request != null
      && |indexBufferInfoList| == |request.submesh|
      && (forall i :: 0 <= i < |request.submesh| ==>
            IsIndexSize(request.submesh[i].indexBuffer.indexSize)
            && indexBufferInfoList[i].indexSize == request.submesh[i].indexBuffer.indexSize
            && indexBufferInfoList[i].indexCount == |LiveIds(triangleList, i)|)
      && (forall t :: 0 <= t < |triangleList| ==> triangleList[t].submeshID < |request.submesh|)
    }

    /**
     * `bakeLods`: append one new LOD index buffer to every submesh of the
     * request, holding the live triangles of that submesh (or the dummy
     * triangle, when none survived but the submesh has vertices).
     */
    method BakeLods()
      requires ReadyToBake()
      modifies request
      ensures request.sharedVertexBuffer == old(request.sharedVertexBuffer)
      ensures |request.submesh| == |old(request.submesh)|
      ensures forall i :: 0 <= i < |request.submesh| ==>
                request.submesh[i]
                == old(request.submesh[i]).(genIndexBuffers := old(request.submesh[i].genIndexBuffers)
                     + [BakedLod(old(request.submesh[i]), old(request.sharedVertexBuffer), indexBufferInfoList[i], triangleList, i)])
    {
      var subs := request.submesh;
      var shared := request.sharedVertexBuffer;
      var infos := indexBufferInfoList;
      var tris := triangleList;
      var buffers, cursors := CreateBuffers(subs, shared, infos);
      cursors := FillBuffers(buffers, cursors, subs, shared, infos, tris);
      var newSubs := HandOver(buffers, cursors, subs, shared, infos, tris);
      request.submesh := newSubs;
    }
  }
}
