/**
 * `QueuedProgressiveMeshGenerator`, the main-thread half of the queued
 * generator: it checks a LOD configuration, copies the mesh's positions and
 * indices into an engine-independent request, and queues the request for
 * the worker.
 */
module LodSnapshot {
  import opened Common
  import opened LodTypes

  /** The bytes of the `k`-th index in a buffer of the given width. */
  function IndexBytes(bytes: seq<byte>, indexSize: nat, k: nat): seq<byte>
    requires k * indexSize + indexSize <= |bytes|
  {
    bytes[k * indexSize .. k * indexSize + indexSize]
  }

  /**
   * `copyIndexBuffer`: the index width, the index count and, when there are
   * indices, the bytes of the slice in use starting at `indexStart`.
   */
  function CopyIndexBuffer(data: LiveIndexData): (r: IndexBuffer)
    requires WellFormedLiveIndexData(data)
    ensures WellFormedIndexBuffer(r)
    ensures r.indexSize == data.indexSize && r.indexCount == data.indexCount
  {
    if data.indexCount > 0 then
      var offset := data.indexStart * data.indexSize;
      IndexBuffer(data.indexSize, data.indexCount, data.buffer[offset .. offset + data.indexCount * data.indexSize])
    else
      IndexBuffer(data.indexSize, data.indexCount, [])
  }

  /** Index `k` of the copy is index `indexStart + k` of the live buffer, byte for byte. */
  lemma CopyIndexBufferWindow(data: LiveIndexData, k: nat)
    requires WellFormedLiveIndexData(data)
    requires k < data.indexCount
    ensures k * data.indexSize + data.indexSize <= |CopyIndexBuffer(data).bytes|
    ensures (data.indexStart + k) * data.indexSize + data.indexSize <= |data.buffer|
    ensures IndexBytes(CopyIndexBuffer(data).bytes, data.indexSize, k)
         == IndexBytes(data.buffer, data.indexSize, data.indexStart + k)
  {
    var size, start, count := data.indexSize, data.indexStart, data.indexCount;
    var offset := start * size;
    var copy := data.buffer[offset .. offset + count * size];
    assert CopyIndexBuffer(data).bytes == copy;
    assert k * size + size <= count * size by {
      assert (count - k) * size >= size;
    }
    assert (start + k) * size == offset + k * size;
    SliceOfSlice(data.buffer, offset, offset + count * size, k * size, k * size + size);
  }

  lemma SliceOfSlice<T>(s: seq<T>, lo: nat, hi: nat, a: nat, b: nat)
    requires lo <= hi <= |s| && a <= b <= hi - lo
    ensures s[lo..hi][a..b] == s[lo + a..lo + b]
  {
    var inner := s[lo..hi];
    forall i | 0 <= i < b - a
      ensures inner[a..b][i] == s[lo + a..lo + b][i]
    {
      assert inner[a..b][i] == inner[a + i] == s[lo + a + i];
    }
  }

  /** The position of vertex `i`: the three floats of its position element. */
  function PositionOf(data: LiveVertexData, i: nat): Position
    requires WellFormedLiveVertexData(data)
    requires i < |data.vertices|
  {
    var v, o := data.vertices[i], data.positionOffset;
    Position(v[o], v[o + 1], v[o + 2])
  }

  /** The positions `copyVertexBuffer` extracts, in vertex order. */
  function VertexPositions(data: LiveVertexData): (r: seq<Position>)
    requires WellFormedLiveVertexData(data)
    ensures |r| == |data.vertices|
  {
    seq(|data.vertices|, i requires 0 <= i < |data.vertices| => PositionOf(data, i))
  }

  /** Whether one of the submeshes draws from the mesh's shared vertex data. */
  predicate UsesShared(subMeshes: seq<LiveSubMesh>)
  {
    exists i :: 0 <= i < |subMeshes| && subMeshes[i].useSharedVertices
  }

  /** One request entry after `copyBuffers` filled it from a live submesh. */
  function CopiedSubmesh(prev: SubmeshInfo, sub: LiveSubMesh): SubmeshInfo
    requires WellFormedLiveIndexData(sub.indexData) && WellFormedLiveVertexData(sub.vertexData)
  {
    prev.(indexBuffer := CopyIndexBuffer(sub.indexData),
          useSharedVertexBuffer := sub.useSharedVertices,
          vertexBuffer := if sub.useSharedVertices then prev.vertexBuffer else VertexBuffer(VertexPositions(sub.vertexData)))
  }

  /** The request's submesh list after `copyBuffers`: resized to the mesh, every entry filled. */
  function CopiedSubmeshes(prev: seq<SubmeshInfo>, subMeshes: seq<LiveSubMesh>, shared: LiveVertexData): (r: seq<SubmeshInfo>)
    requires WellFormedGeometry(subMeshes, shared)
    ensures |r| == |subMeshes|
    ensures forall i :: 0 <= i < |r| ==>
              && WellFormedIndexBuffer(r[i].indexBuffer)
              && r[i].indexBuffer.indexCount == subMeshes[i].indexData.indexCount
  {
    var resized := Resize(prev, |subMeshes|, EmptySubmesh);
    seq(|subMeshes|, i requires 0 <= i < |subMeshes| => CopiedSubmesh(resized[i], subMeshes[i]))
  }

  /** Why a debug build rejects a LOD configuration. */
  datatype LodConfigError = EmptyLevels | TooManyLevels | UnsortedDistances

  /** Each value is at least the one before it: the order a distance-based LOD strategy demands. */
  predicate NonDecreasing(values: seq<real>)
  {
    forall i :: 0 < i < |values| ==> values[i - 1] <= values[i]
  }

  /** Checking neighbours is enough: the values are sorted as a whole exactly when each is at least the one before. */
  lemma NonDecreasingSorted(values: seq<real>)
    ensures NonDecreasing(values) <==> forall i, j :: 0 <= i <= j < |values| ==> values[i] <= values[j]
  {
    if NonDecreasing(values) {
      forall i, j | 0 <= i <= j < |values|
        ensures values[i] <= values[j]
      {
        NonDecreasingRun(values, i, j);
      }
    }
  }

  lemma {:induction false} NonDecreasingRun(values: seq<real>, i: nat, j: nat)
    requires NonDecreasing(values)
    requires i <= j < |values|
    ensures values[i] <= values[j]
    decreases j - i
  {
    if i < j {
      NonDecreasingRun(values, i, j - 1);
    }
  }

  /** The distances of the levels, in order. */
  function Distances(levels: seq<LodLevel>): (r: seq<real>)
    ensures |r| == |levels|
  {
    seq(|levels|, i requires 0 <= i < |levels| => levels[i].distance)
  }

  /** The distances are non-decreasing exactly when the levels are sorted by distance. */
  lemma DistancesSorted(levels: seq<LodLevel>)
    ensures NonDecreasing(Distances(levels)) <==>
              forall i, j :: 0 <= i <= j < |levels| ==> levels[i].distance <= levels[j].distance
  {
    var values := Distances(levels);
    NonDecreasingSorted(values);
    assert forall i :: 0 <= i < |levels| ==> values[i] == levels[i].distance;
  }

  /**
   * The debug-build assertions of `build`, in their order: at least one level,
   * at most 0xffff levels, and distances sorted.
   */
  function CheckLodConfig(config: LodConfig): (r: Outcome<LodConfigError>)
    ensures r == Fail(EmptyLevels) <==> |config.levels| == 0
    ensures r == Fail(TooManyLevels) <==> |config.levels| > 0xffff
    ensures r == Pass <==>
              && 0 < |config.levels| <= 0xffff
              && forall i, j :: 0 <= i <= j < |config.levels| ==> config.levels[i].distance <= config.levels[j].distance
  {
    DistancesSorted(config.levels);
    if |config.levels| == 0 then Fail(EmptyLevels)
    else if |config.levels| > 0xffff then Fail(TooManyLevels)
    else if !NonDecreasing(Distances(config.levels)) then Fail(UnsortedDistances)
    else Pass
  }

  class QueuedProgressiveMeshGenerator {
    /** The requests added to the work queue's LOD channel, oldest first. */
    var queued: seq<PMGenRequest>

    constructor ()
      ensures queued == []
    {
      queued := [];
    }

    /**
     * `build`: with the debug assertions compiled in (`checked`), reject a
     * malformed configuration; otherwise snapshot the mesh into a new
     * request and queue it.
     */
    method Build(mesh: Mesh, config: LodConfig, checked: bool) returns (outcome: Outcome<LodConfigError>)
      requires WellFormedGeometry(mesh.subMeshes, mesh.sharedVertexData)
      modifies this
      ensures outcome == if checked then CheckLodConfig(config) else Pass
      ensures outcome.Fail? ==> queued == old(queued)
      ensures outcome.Pass? ==> |queued| == |old(queued)| + 1 && queued[..|old(queued)|] == old(queued)
      ensures outcome.Pass? ==>
                var req := queued[|queued| - 1];
                && fresh(req) && req.mesh == mesh && req.config == config
                && req.submesh == CopiedSubmeshes([], mesh.subMeshes, mesh.sharedVertexData)
                && req.sharedVertexBuffer
                   == if UsesShared(mesh.subMeshes) then VertexBuffer(VertexPositions(mesh.sharedVertexData)) else VertexBuffer([])
    {
      if checked {
        if |config.levels| == 0 {
          return Fail(EmptyLevels);
        }
        if |config.levels| > 0xffff {
          return Fail(TooManyLevels);
        }
        var values: seq<real> := [];
        for i := 0 to |config.levels|
          invariant values == Distances(config.levels[..i])
        {
          values := values + [config.levels[i].distance];
        }
        assert config.levels[..|config.levels|] == config.levels;
        if !NonDecreasing(values) {
          return Fail(UnsortedDistances);
        }
      }
      var req := new PMGenRequest(mesh, config);
      CopyBuffers(mesh, req);
      queued := queued + [req];
      outcome := Pass;
    }

    /** `copyVertexBuffer`: the position of every vertex, read from its position element. */
    method CopyVertexBuffer(data: LiveVertexData) returns (out: VertexBuffer)
      requires WellFormedLiveVertexData(data)
      ensures out.VertexCount() == |data.vertices|
      ensures forall i :: 0 <= i < |data.vertices| ==> out.positions[i] == PositionOf(data, i)
    {
      var positions: seq<Position> := [];
      for i := 0 to |data.vertices|
        invariant |positions| == i
        invariant forall k :: 0 <= k < i ==> positions[k] == PositionOf(data, k)
      {
        var v, o := data.vertices[i], data.positionOffset;
        positions := positions + [Position(v[o], v[o + 1], v[o + 2])];
      }
      out := VertexBuffer(positions);
    }

    /**
     * `copyBuffers`: resize the request to the mesh's submeshes and fill each
     * entry; the shared vertex data is copied once, for the first submesh
     * that uses it.
     */
    method CopyBuffers(mesh: Mesh, req: PMGenRequest)
      requires WellFormedGeometry(mesh.subMeshes, mesh.sharedVertexData)
      modifies req
      ensures req.submesh == CopiedSubmeshes(old(req.submesh), mesh.subMeshes, mesh.sharedVertexData)
      ensures req.sharedVertexBuffer
           == if UsesShared(mesh.subMeshes) then VertexBuffer(VertexPositions(mesh.sharedVertexData))
              else old(req.sharedVertexBuffer)
    {
      var subs := mesh.subMeshes;
      var n := |subs|;
      var sharedVerticesAdded := false;
      req.submesh := Resize(req.submesh, n, EmptySubmesh);
      ghost var resized := req.submesh;
      for i := 0 to n
        invariant |req.submesh| == n
        invariant sharedVerticesAdded <==> UsesShared(subs[..i])
        invariant forall j :: 0 <= j < n ==>
                    req.submesh[j] == if j < i then CopiedSubmesh(resized[j], subs[j]) else resized[j]
        invariant req.sharedVertexBuffer
               == if sharedVerticesAdded then VertexBuffer(VertexPositions(mesh.sharedVertexData))
                  else old(req.sharedVertexBuffer)
      {
        var submesh := subs[i];
        var out := req.submesh[i];
        out := out.(indexBuffer := CopyIndexBuffer(submesh.indexData));
        out := out.(useSharedVertexBuffer := submesh.useSharedVertices);
        if !out.useSharedVertexBuffer {
          var vertexBuffer := CopyVertexBuffer(submesh.vertexData);
          out := out.(vertexBuffer := vertexBuffer);
        } else if !sharedVerticesAdded {
          sharedVerticesAdded := true;
          var vertexBuffer := CopyVertexBuffer(mesh.sharedVertexData);
          req.sharedVertexBuffer := vertexBuffer;
        }
        req.submesh := req.submesh[i := out];
        assert subs[..i + 1] == subs[..i] + [submesh];
      }
      assert subs[..n] == subs;
    }
  }
}
