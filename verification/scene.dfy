/** The decoded scene the external scene importer (Assimp) hands to the asset
    loader, reduced to the parts the loader reads: materials queried per
    texture channel, meshes with positions, normals, the first UV channel,
    faces and a material index, and the embedded-texture table. */
module Scene {

  import opened Basics

  /** `aiVector3D`: three floats (UV channels are stored as 3-vectors too). */
  datatype Vec3 = Vec3(x: Float, y: Float, z: Float)

  /** The importer's texture channels (`aiTextureType`). */
  datatype TextureType =
    | Diffuse | Specular | Ambient | Emissive | Height | Normals
    | Shininess | Opacity | Displacement | Lightmap | Reflection | Unknown

  /** `aiMaterial`, seen through `GetTexture`: for each channel, the texture
      reference strings stored at indices 0, 1, … */
  datatype SceneMaterial = SceneMaterial(textures: map<TextureType, seq<string>>)

  /** `aiFace`: vertex indices of one polygon. */
  datatype Face = Face(indices: seq<u32>)

  /** `aiMesh`. A channel the file does not provide is `None` (a null array). */
  datatype SceneMesh = SceneMesh(
    positions: seq<Vec3>,
    normals: Option<seq<Vec3>>,
    uv0: Option<seq<Vec3>>,
    faces: seq<Face>,
    materialIndex: u32)

  /** `aiTexture`. A height of 0 marks a still-encoded image whose byte count
      is stored in `width`. */
  datatype EmbeddedTexture = EmbeddedTexture(data: seq<byte>, width: u32, height: u32)

  /** `aiScene`. `embedded` is what `GetEmbeddedTexture` answers for each
      texture reference string that names an embedded texture. */
  datatype Scene = Scene(
    materials: seq<SceneMaterial>,
    meshes: seq<SceneMesh>,
    embedded: map<string, EmbeddedTexture>)

  /** What `Importer::ReadFile` leaves behind: the scene, or null, plus the
      importer's diagnostic string. */
  datatype ImportResult = ImportResult(scene: Option<Scene>, errorString: string)

  /** `aiScene::HasMeshes`. */
  predicate HasMeshes(s: Scene) {
    |s.meshes| > 0
  }

  /** What the loader reads unconditionally from a mesh: a normal and a UV
      for every vertex, three indices of every face, and counts that fit the
      32-bit arithmetic `mNumFaces * 3` and `(uint32_t)indices.size()`. */
  predicate MeshReadable(m: SceneMesh) {
    && |m.positions| < U32_LIMIT
    && m.normals.Some? && |m.normals.value| == |m.positions|
    && m.uv0.Some? && |m.uv0.value| == |m.positions|
    && 3 * |m.faces| < U32_LIMIT
    && forall i :: 0 <= i < |m.faces| ==> |m.faces[i].indices| >= 3
  }

  /** The loader only touches mesh data when the import produced a scene with
      meshes; for those, every mesh must be readable. */
  predicate ImportReadable(r: ImportResult) {
    r.scene.Some? && HasMeshes(r.scene.value) ==>
      && |r.scene.value.materials| < U32_LIMIT
      && |r.scene.value.meshes| < U32_LIMIT
      && forall i :: 0 <= i < |r.scene.value.meshes| ==> MeshReadable(r.scene.value.meshes[i])
  }

  /** Every mesh's face indices address existing vertices. */
  predicate FacesInRange(m: SceneMesh) {
    forall i, k :: 0 <= i < |m.faces| && 0 <= k < |m.faces[i].indices| ==>
      m.faces[i].indices[k] < |m.positions|
  }

  /** Every mesh names an existing material (the scene importer's own guarantee
      for a validated scene; the loader does not check it). */
  predicate MaterialIndicesInRange(s: Scene) {
    forall i :: 0 <= i < |s.meshes| ==> s.meshes[i].materialIndex < |s.materials|
  }
}
