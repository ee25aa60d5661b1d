/** Mesh import (`LoadMesh` in src/asset_loader.cpp): copying the decoder's
    per-vertex channels into the fixed `Vertex` layout, flattening faces into
    a triangle-list index sequence and uploading both as GPU buffers. */
module MeshImport {

  import opened Basics
  import opened Model
  import opened Scene
  import opened Foreign

  function ToFloat3(v: Vec3): Float3 {
    Float3(v.x, v.y, v.z)
  }

  /** Every face has the three indices the loader reads. */
  predicate Triangles(faces: seq<Face>) {
    forall i :: 0 <= i < |faces| ==> |faces[i].indices| >= 3
  }

  /** Reference flattening: the first three indices of each face, face after face. */
  function Flatten(faces: seq<Face>): (r: seq<u32>)
    requires Triangles(faces)
    ensures |r| == 3 * |faces|
  {
    if faces == [] then [] else faces[0].indices[..3] + Flatten(faces[1..])
  }

  /** Index `3 * i + k` of the flattened sequence is index `k` of face `i`. */
  lemma {:induction false} FlattenIndex(faces: seq<Face>, i: nat, k: nat)
    requires Triangles(faces)
    requires i < |faces| && k < 3
    ensures Flatten(faces)[3 * i + k] == faces[i].indices[k]
  {
    if i > 0 {
      FlattenIndex(faces[1..], i - 1, k);
      assert Flatten(faces)[3 * i + k] == Flatten(faces[1..])[3 * (i - 1) + k];
    }
  }

  /** Flattening round trip: reading the flattened list back in threes
      recovers every face's triangle. */
  lemma FlattenFaces(faces: seq<Face>)
    requires Triangles(faces)
    ensures forall i, k :: 0 <= i < |faces| && 0 <= k < 3 ==> Flatten(faces)[3 * i + k] == faces[i].indices[k]
  {
    forall i, k | 0 <= i < |faces| && 0 <= k < 3
      ensures Flatten(faces)[3 * i + k] == faces[i].indices[k]
    {
      FlattenIndex(faces, i, k);
    }
  }

  /** Every flattened index comes from some face. */
  lemma FlattenSource(faces: seq<Face>, j: nat)
    requires Triangles(faces) && j < |Flatten(faces)|
    ensures Flatten(faces)[j] == faces[j / 3].indices[j % 3]
  {
    FlattenIndex(faces, j / 3, j % 3);
  }

  /** Bounds carry over: if every face index addresses an existing vertex,
      so does every emitted index. */
  lemma FlattenInRange(faces: seq<Face>, vertexCount: nat)
    requires Triangles(faces)
    requires forall i, k :: 0 <= i < |faces| && 0 <= k < |faces[i].indices| ==> faces[i].indices[k] < vertexCount
    ensures forall j :: 0 <= j < |Flatten(faces)| ==> Flatten(faces)[j] < vertexCount
  {
    forall j | 0 <= j < |Flatten(faces)|
      ensures Flatten(faces)[j] < vertexCount
    {
      FlattenSource(faces, j);
    }
  }

  /** Reference vertex copy: position, normal and the x, y of UV channel 0. */
  function CopyVertices(m: SceneMesh): (r: seq<Vertex>)
    requires MeshReadable(m)
    ensures |r| == |m.positions|
  {
    seq(|m.positions|, i requires 0 <= i < |m.positions| =>
      Vertex(ToFloat3(m.positions[i]), ToFloat3(m.normals.value[i]),
             Float2(m.uv0.value[i].x, m.uv0.value[i].y)))
  }

  /** The two loops of `LoadMesh` as written: fill a vertex array of the
      decoder's vertex count, then an index array of `3 * faces` entries,
      writing `indices[i * 3 + k]` from face `i`. */
  method BuildMeshData(m: SceneMesh) returns (vertices: seq<Vertex>, indices: seq<u32>)
    requires MeshReadable(m)
    ensures |vertices| == |m.positions|
    ensures forall i :: 0 <= i < |vertices| ==>
              && vertices[i].position == ToFloat3(m.positions[i])
              && vertices[i].normal == ToFloat3(m.normals.value[i])
              && vertices[i].texCoords == Float2(m.uv0.value[i].x, m.uv0.value[i].y)
    ensures indices == Flatten(m.faces)
  {
    var n := |m.positions|;
    var vs := new Vertex[n];
    var i := 0;
    while i < n
      invariant 0 <= i <= n
      invariant forall j :: 0 <= j < i ==>
                  vs[j] == Vertex(ToFloat3(m.positions[j]), ToFloat3(m.normals.value[j]),
                                  Float2(m.uv0.value[j].x, m.uv0.value[j].y))
    {
      vs[i] := Vertex(ToFloat3(m.positions[i]), ToFloat3(m.normals.value[i]),
                      Float2(m.uv0.value[i].x, m.uv0.value[i].y));
      i := i + 1;
    }
    vertices := vs[..];

    var faces := m.faces;
    var ix := new u32[3 * |faces|];
    FlattenFaces(faces);
    var f := 0;
    while f < |faces|
      invariant 0 <= f <= |faces|
      invariant forall j :: 0 <= j < 3 * f ==> ix[j] == Flatten(faces)[j]
    {
      ix[f * 3 + 0] := faces[f].indices[0];
      ix[f * 3 + 1] := faces[f].indices[1];
      ix[f * 3 + 2] := faces[f].indices[2];
      f := f + 1;
    }
    indices := ix[..];
  }

  /** The vertex-buffer descriptor: default usage, `sizeof(Vertex) * n` bytes
      cast to `UINT`, vertex-buffer bind. */
  function VertexBufferDesc(vertexCount: nat): BufferDesc {
    BufferDesc(UsageDefault, Wrap32(VertexSize() * vertexCount), BindVertexBuffer)
  }

  /** The index-buffer descriptor: default usage, `sizeof(uint32_t) * m` bytes
      cast to `UINT`, index-buffer bind. */
  function IndexBufferDesc(indexCount: nat): BufferDesc {
    BufferDesc(UsageDefault, Wrap32(INDEX_BYTES * indexCount), BindIndexBuffer)
  }

  /** The mesh `LoadMesh` builds, buffers included. */
  function MeshOf(m: SceneMesh): (r: Mesh)
    requires MeshReadable(m)
    ensures r.indexCount == 3 * |m.faces|
    ensures r.materialIndex == m.materialIndex
  {
    var vertices := CopyVertices(m);
    var indices := Flatten(m.faces);
    Mesh(Some(GpuBuffer(VertexBufferDesc(|vertices|), VertexData(vertices))),
         Some(GpuBuffer(IndexBufferDesc(|indices|), IndexData(indices))),
         |indices|,
         m.materialIndex)
  }

  /** The two buffer creations of one mesh, vertex buffer first. */
  function MeshCalls(mesh: Mesh): seq<Call>
    requires mesh.vertexBuffer.Some? && mesh.indexBuffer.Some?
  {
    [CreateBuffer(mesh.vertexBuffer.value), CreateBuffer(mesh.indexBuffer.value)]
  }

  /** `LoadMesh`: builds the mesh and creates its two buffers. */
  function LoadMesh(m: SceneMesh, e: Effects): (r: (Mesh, Effects))
    requires MeshReadable(m)
    ensures r.0 == MeshOf(m)
    ensures r.1.log == e.log
    ensures r.1.calls == e.calls + MeshCalls(MeshOf(m))
  {
    var mesh := MeshOf(m);
    (mesh, Emit(e, MeshCalls(mesh)))
  }

  /** What `LoadMesh` promises about the mesh it returns: the vertex buffer
      holds one vertex per decoder vertex, vertex `i` carrying position `i`,
      normal `i` and the x, y of UV `i`; the index buffer holds the faces
      flattened, 3 indices per face, with `indexCount` equal to its length;
      the material index is copied without a bounds check; the byte widths
      are `32 * n` and `4 * 3 * faces`, reduced modulo 2^32. */
  lemma LoadMeshContents(m: SceneMesh)
    requires MeshReadable(m)
    ensures var mesh := MeshOf(m);
            && mesh.vertexBuffer.Some? && mesh.indexBuffer.Some?
            && mesh.vertexBuffer.value.data.VertexData?
            && mesh.indexBuffer.value.data.IndexData?
            && var vs := mesh.vertexBuffer.value.data.vertices;
               var ix := mesh.indexBuffer.value.data.indices;
               && |vs| == |m.positions|
               && (forall i :: 0 <= i < |vs| ==>
                     && vs[i].position == ToFloat3(m.positions[i])
                     && vs[i].normal == ToFloat3(m.normals.value[i])
                     && vs[i].texCoords.x == m.uv0.value[i].x
                     && vs[i].texCoords.y == m.uv0.value[i].y)
               && |ix| == 3 * |m.faces| == mesh.indexCount
               && (forall i, k :: 0 <= i < |m.faces| && 0 <= k < 3 ==> ix[3 * i + k] == m.faces[i].indices[k])
               && mesh.materialIndex == m.materialIndex
               && mesh.vertexBuffer.value.desc.byteWidth == Wrap32(32 * |m.positions|)
               && mesh.indexBuffer.value.desc.byteWidth == Wrap32(4 * (3 * |m.faces|))
               && mesh.vertexBuffer.value.desc.bindFlags == BindVertexBuffer
               && mesh.indexBuffer.value.desc.bindFlags == BindIndexBuffer
  {
    FlattenFaces(m.faces);
    assert VertexSize() == 32;
  }

  /** Meshes whose faces address existing vertices yield index buffers that
      only address existing vertices of their own vertex buffer. */
  lemma LoadMeshIndicesInRange(m: SceneMesh)
    requires MeshReadable(m) && FacesInRange(m)
    ensures var mesh := MeshOf(m);
            forall j :: 0 <= j < |mesh.indexBuffer.value.data.indices| ==>
              mesh.indexBuffer.value.data.indices[j] < |mesh.vertexBuffer.value.data.vertices|
  {
    FlattenInRange(m.faces, |m.positions|);
  }
}
