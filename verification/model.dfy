/** The renderer-owned model (src/model.h) and the GPU-side values it holds.
    A GPU buffer is represented by what was uploaded into it — its descriptor
    and its contents — and a shader-resource view by an opaque handle. */
module Model {

  import opened Basics

  datatype Float3 = Float3(x: Float, y: Float, z: Float)
  datatype Float2 = Float2(x: Float, y: Float)

  /** `Vertex`: position, normal, texture coordinates, in this order. */
  datatype Vertex = Vertex(position: Float3, normal: Float3, texCoords: Float2)

  /** A shader-resource-view handle (`ID3D11ShaderResourceView*`). */
  datatype Srv = Srv(id: nat)

  /** The device pointer handed to the loaders. */
  datatype Device = NullDevice | Device(id: nat)

  datatype Usage = UsageDefault | UsageImmutable
  datatype BindFlag = BindVertexBuffer | BindIndexBuffer | BindShaderResource
  datatype DxgiFormat = R8G8B8A8Unorm | R32Uint | R32G32B32Float | R32G32Float

  /** `D3D11_BUFFER_DESC`, the fields the loader sets. */
  datatype BufferDesc = BufferDesc(usage: Usage, byteWidth: u32, bindFlags: BindFlag)

  datatype BufferData = VertexData(vertices: seq<Vertex>) | IndexData(indices: seq<u32>)

  /** An immutable GPU buffer, known by its descriptor and uploaded contents. */
  datatype GpuBuffer = GpuBuffer(desc: BufferDesc, data: BufferData)

  /** `Mesh`: the two buffers (null until created), the index count and the
      index of the mesh's material in the owning model. */
  datatype Mesh = Mesh(
    vertexBuffer: Option<GpuBuffer>,
    indexBuffer: Option<GpuBuffer>,
    indexCount: u32,
    materialIndex: u32)

  /** `Material`: four independent optional texture slots. */
  datatype Material = Material(
    diffuse: Option<Srv>,
    specular: Option<Srv>,
    roughness: Option<Srv>,
    normal: Option<Srv>)

  /** `Material{}`: every slot empty. */
  const EmptyMaterial: Material := Material(None, None, None, None)

  /** `Model`: a display name and ordered meshes and materials. */
  datatype Model = Model(name: string, meshes: seq<Mesh>, materials: seq<Material>)

  /** The fields of `Vertex` in declaration order, and their widths in floats. */
  datatype VertexField = Position | Normal | TexCoords

  const VERTEX_FIELDS: seq<VertexField> := [Position, Normal, TexCoords]

  const FLOAT_BYTES: nat := 4

  function FieldFloats(f: VertexField): nat {
    match f
    case Position => 3
    case Normal => 3
    case TexCoords => 2
  }

  function FieldBytes(f: VertexField): nat {
    FLOAT_BYTES * FieldFloats(f)
  }

  /** Bytes taken by the first `n` fields of `fields`. */
  function PrefixBytes(fields: seq<VertexField>, n: nat): nat
    requires n <= |fields|
  {
    if n == 0 then 0 else PrefixBytes(fields, n - 1) + FieldBytes(fields[n - 1])
  }

  /** Byte offset of field `i` of `Vertex` (no padding: all members are floats). */
  function FieldOffset(i: nat): nat
    requires i < |VERTEX_FIELDS|
  {
    PrefixBytes(VERTEX_FIELDS, i)
  }

  /** `sizeof(Vertex)`. */
  function VertexSize(): nat {
    PrefixBytes(VERTEX_FIELDS, |VERTEX_FIELDS|)
  }

  /** The layout of `Vertex`: position at byte 0, normal at 12, texture
      coordinates at 24, 32 bytes in all. */
  lemma VertexLayout()
    ensures FieldOffset(0) == 0 && FieldOffset(1) == 12 && FieldOffset(2) == 24
    ensures VertexSize() == 32
  {
    assert PrefixBytes(VERTEX_FIELDS, 1) == 12;
    assert PrefixBytes(VERTEX_FIELDS, 2) == 24;
  }

  /** `sizeof(uint32_t)`, the width of one index. */
  const INDEX_BYTES: nat := 4
}
