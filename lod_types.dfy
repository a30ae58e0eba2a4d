/**
 * The data of the queued progressive-mesh generator: the live mesh as the
 * engine exposes it, the request that travels from the main thread to the
 * worker and back, and the worker's bookkeeping records.
 */
module LodTypes {
  import opened Common

  type byte = x: int | 0 <= x < 0x100
  type u32 = x: int | 0 <= x < 0x1_0000_0000

  /** The three vertex ids of a triangle (`PMTriangle::vertexID[3]`). */
  type Triple = s: seq<u32> | |s| == 3 witness [0, 0, 0]

  /** A vertex position. Positions are only ever compared for equality. */
  datatype Position = Position(x: real, y: real, z: real)

  /** A deduplicated vertex: its position and whether several input vertices share it. */
  datatype Vertex = Vertex(position: Position, seam: bool)

  /** `PMGenRequest::VertexBuffer`: the position-only copy of a vertex stream. */
  datatype VertexBuffer = VertexBuffer(positions: seq<Position>) {
    function VertexCount(): nat { |positions| }
  }

  /** `PMGenRequest::IndexBuffer`: raw index bytes and the width of one index. */
  datatype IndexBuffer = IndexBuffer(indexSize: nat, indexCount: nat, bytes: seq<byte>)

  const NoIndexBuffer := IndexBuffer(0, 0, [])

  /** Ogre index buffers hold 16- or 32-bit indices. */
  predicate IsIndexSize(size: nat) { size == 2 || size == 4 }

  /** An index buffer whose byte array holds exactly `indexCount` indices of `indexSize` bytes. */
  predicate WellFormedIndexBuffer(b: IndexBuffer) {
    IsIndexSize(b.indexSize) && |b.bytes| == b.indexCount * b.indexSize
  }

  /** `PMGenRequest::SubmeshInfo`: one submesh of the snapshot plus the LOD buffers generated for it. */
  datatype SubmeshInfo = SubmeshInfo(
    indexBuffer: IndexBuffer,
    vertexBuffer: VertexBuffer,
    useSharedVertexBuffer: bool,
    genIndexBuffers: seq<IndexBuffer>)

  /** A default-constructed `SubmeshInfo`. */
  const EmptySubmesh := SubmeshInfo(NoIndexBuffer, VertexBuffer([]), false, [])

  /** One requested LOD level. */
  datatype LodLevel = LodLevel(distance: real, reductionValue: real)

  /** The LOD configuration handed to `build` (the mesh it targets is kept by the request). */
  datatype LodConfig = LodConfig(levels: seq<LodLevel>)

  /** A triangle of the simplifier: vertex ids local to its submesh, owner, and whether a collapse removed it. */
  datatype Triangle = Triangle(vertexID: Triple, submeshID: nat, isRemoved: bool)

  /** `PMWorker::IndexBufferInfo`: index width and current index count of one submesh. */
  datatype IndexBufferInfo = IndexBufferInfo(indexSize: nat, indexCount: nat)

  /** `Ogre::IndexData` of a live submesh: a hardware index buffer and the slice of it in use. */
  datatype LiveIndexData = LiveIndexData(buffer: seq<byte>, indexSize: nat, indexStart: nat, indexCount: nat)

  /** The slice a live index data describes lies inside its hardware buffer. */
  predicate WellFormedLiveIndexData(d: LiveIndexData) {
    IsIndexSize(d.indexSize) && d.indexStart * d.indexSize + d.indexCount * d.indexSize <= |d.buffer|
  }

  /**
   * `Ogre::VertexData` with the buffer its position element is bound to: one
   * record of float attributes per vertex, the position element starting at
   * `positionOffset` within each record.
   */
  datatype LiveVertexData = LiveVertexData(vertices: seq<seq<real>>, positionOffset: nat)

  /** The position element is three floats (12 bytes) inside every vertex record. */
  predicate WellFormedLiveVertexData(d: LiveVertexData) {
    forall i :: 0 <= i < |d.vertices| ==> d.positionOffset + 3 <= |d.vertices[i]|
  }

  /** The geometry the snapshot reads is well formed: index slices and position elements. */
  predicate WellFormedGeometry(subMeshes: seq<LiveSubMesh>, sharedVertexData: LiveVertexData) {
    && WellFormedLiveVertexData(sharedVertexData)
    && forall i :: 0 <= i < |subMeshes| ==>
         WellFormedLiveIndexData(subMeshes[i].indexData) && WellFormedLiveVertexData(subMeshes[i].vertexData)
  }

  /** `Ogre::SubMesh` as far as the snapshot reads it. */
  datatype LiveSubMesh = LiveSubMesh(indexData: LiveIndexData, useSharedVertices: bool, vertexData: LiveVertexData)

  /** The element type of a hardware index buffer. */
  datatype IndexType = Index16 | Index32 {
    function Width(): nat { if Index16? then 2 else 4 }
  }

  /** A hardware index buffer created by the injector. */
  datatype HardwareIndexBuffer = HardwareIndexBuffer(indexType: IndexType, numIndexes: nat, contents: seq<byte>)

  /** One entry of a submesh's LOD face list (an `Ogre::IndexData` created by the injector). */
  datatype LodIndexData = LodIndexData(indexStart: nat, indexCount: nat, indexBuffer: Option<HardwareIndexBuffer>)

  /**
   * The live mesh: its submeshes' geometry, the shared vertex data, and the
   * LOD face list of every submesh, which injection replaces.
   */
  class Mesh {
    const subMeshes: seq<LiveSubMesh>
    const sharedVertexData: LiveVertexData
    var lodFaceLists: seq<seq<LodIndexData>>

    /** One face list per submesh, over well-formed geometry. */
    ghost predicate Valid()
      reads this
    {
      |lodFaceLists| == |subMeshes| && WellFormedGeometry(subMeshes, sharedVertexData)
    }

    constructor (subMeshes: seq<LiveSubMesh>, sharedVertexData: LiveVertexData)
      requires WellFormedGeometry(subMeshes, sharedVertexData)
      ensures Valid()
      ensures this.subMeshes == subMeshes && this.sharedVertexData == sharedVertexData
      ensures forall i :: 0 <= i < |lodFaceLists| ==> lodFaceLists[i] == []
    {
      this.subMeshes := subMeshes;
      this.sharedVertexData := sharedVertexData;
      lodFaceLists := seq(|subMeshes|, _ => []);
    }

    /** `Ogre::Mesh::removeLodLevels`: every submesh loses all of its LOD face list entries. */
    method RemoveLodLevels()
      modifies this
      ensures Valid() <==> old(Valid())
      ensures |lodFaceLists| == |old(lodFaceLists)|
      ensures forall i :: 0 <= i < |lodFaceLists| ==> lodFaceLists[i] == []
    {
      lodFaceLists := seq(|lodFaceLists|, _ => []);
    }
  }

  /**
   * `PMGenRequest`: the engine-independent snapshot of one mesh plus its LOD
   * configuration. The worker appends the generated index buffers to it.
   */
  class PMGenRequest {
    const mesh: Mesh
    const config: LodConfig
    var submesh: seq<SubmeshInfo>
    var sharedVertexBuffer: VertexBuffer

    constructor (mesh: Mesh, config: LodConfig)
      ensures this.mesh == mesh && this.config == config
      ensures submesh == [] && sharedVertexBuffer == VertexBuffer([])
    {
      this.mesh := mesh;
      this.config := config;
      submesh := [];
      sharedVertexBuffer := VertexBuffer([]);
    }
  }

  /** `std::vector::resize`: keep the first `n` elements, padding with `d`. */
  function Resize<T>(xs: seq<T>, n: nat, d: T): (r: seq<T>)
    ensures |r| == n
    ensures forall i :: 0 <= i < n ==> r[i] == if i < |xs| then xs[i] else d
  {
    if n <= |xs| then xs[..n] else xs + seq(n - |xs|, _ => d)
  }
}
