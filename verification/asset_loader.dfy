/** The scene-to-model importer (src/asset_loader.cpp): `LoadModel`, which
    decodes a file, builds every material and then every mesh in decode
    order, and the per-material texture resolution behind it. */
module AssetLoader {

  import opened Basics
  import opened Log
  import opened Model
  import opened Scene
  import opened Foreign
  import opened Texture
  import opened MeshImport

  /** `TexturePath`: the channel's texture at index 0, if the material has one. */
  function TexturePath(mat: SceneMaterial, t: TextureType): (r: Option<string>)
    ensures r.Some? <==> t in mat.textures && |mat.textures[t]| > 0
    ensures r.Some? ==> r.value == mat.textures[t][0]
  {
    if t in mat.textures && |mat.textures[t]| > 0 then Some(mat.textures[t][0]) else None
  }

  /** `LoadMaterialTexture`: an embedded, still-encoded texture (height 0) is
      decoded from memory with its width as the byte count; an embedded raw
      texture reaches an empty branch and, like a texture that is not
      embedded, is loaded from `basePath / texPath`. */
  function LoadMaterialTexture(p: Platform, device: Device, scene: Scene, texPath: string,
                               basePath: string, e: Effects): (r: Loaded)
    ensures texPath in scene.embedded && scene.embedded[texPath].height == 0 ==>
              r.view == EmbeddedView(p, device, scene.embedded[texPath].data, scene.embedded[texPath].width)
    ensures !(texPath in scene.embedded && scene.embedded[texPath].height == 0) ==>
              r.view == ResolveView(p, device, p.joinPath(basePath, texPath))
    ensures TextureCallsOnly(e, r.effects)
    ensures |r.effects.log.entries| <= |e.log.entries| + 1
  {
    if texPath in scene.embedded && scene.embedded[texPath].height == 0 then
      var tex := scene.embedded[texPath];
      LoadEmbeddedAppendsTextureCalls(p, device, tex.data, tex.width, e);
      LoadEmbeddedCompressed(p, device, tex.data, tex.width, e)
    else
      LoadAppendsTextureCalls(p, device, p.joinPath(basePath, texPath), e);
      Load(p, device, p.joinPath(basePath, texPath), e)
  }

  /** The three routes of `LoadMaterialTexture`, told apart by the calls made. */
  lemma MaterialTextureRoutes(p: Platform, device: Device, scene: Scene, texPath: string,
                              basePath: string, e: Effects)
    ensures var r := LoadMaterialTexture(p, device, scene, texPath, basePath, e);
            var external := Load(p, device, p.joinPath(basePath, texPath), e);
            && (texPath in scene.embedded && scene.embedded[texPath].height == 0 && device.Device? ==>
                  r.effects.calls == e.calls + [WicFromMemory(scene.embedded[texPath].data,
                                                              scene.embedded[texPath].width)])
            && (texPath in scene.embedded && scene.embedded[texPath].height == 0 && device.NullDevice? ==>
                  r == Loaded(None, e))
            && (texPath in scene.embedded && scene.embedded[texPath].height != 0 ==> r == external)
            && (texPath !in scene.embedded ==> r == external)
  {
  }

  /** The four material slots, in the order `DrawModel` binds them. */
  datatype Slot = DiffuseSlot | SpecularSlot | NormalSlot | RoughnessSlot

  /** The importer channel each slot is filled from. */
  function SlotChannel(s: Slot): TextureType {
    match s
    case DiffuseSlot => Diffuse
    case SpecularSlot => Specular
    case NormalSlot => Height
    case RoughnessSlot => Ambient
  }

  function SlotView(m: Material, s: Slot): Option<Srv> {
    match s
    case DiffuseSlot => m.diffuse
    case SpecularSlot => m.specular
    case NormalSlot => m.normal
    case RoughnessSlot => m.roughness
  }

  /** The view a channel resolves to, whatever was logged or called before. */
  function ChannelView(p: Platform, device: Device, scene: Scene, mat: SceneMaterial,
                       t: TextureType, basePath: string): Option<Srv>
  {
    match TexturePath(mat, t)
    case None => None
    case Some(path) =>
      if path in scene.embedded && scene.embedded[path].height == 0 then
        EmbeddedView(p, device, scene.embedded[path].data, scene.embedded[path].width)
      else
        ResolveView(p, device, p.joinPath(basePath, path))
  }

  /** One `if (auto path = TexturePath(mat, type))` block of `LoadMaterial`. */
  function LoadChannel(p: Platform, device: Device, scene: Scene, mat: SceneMaterial,
                       t: TextureType, basePath: string, e: Effects): (r: Loaded)
    ensures TexturePath(mat, t).None? ==> r == Loaded(None, e)
    ensures r.view == ChannelView(p, device, scene, mat, t, basePath)
  {
    match TexturePath(mat, t)
    case None => Loaded(None, e)
    case Some(path) => LoadMaterialTexture(p, device, scene, path, basePath, e)
  }

  /** Channel loading only appends texture calls and at most one log entry. */
  lemma LoadChannelAppends(p: Platform, device: Device, scene: Scene, mat: SceneMaterial,
                           t: TextureType, basePath: string, e: Effects)
    ensures var r := LoadChannel(p, device, scene, mat, t, basePath, e);
            && TextureCallsOnly(e, r.effects)
            && |r.effects.log.entries| <= |e.log.entries| + 1
  {
  }

  /** The material a scene material resolves to: slot `s` filled from
      channel `SlotChannel(s)`. */
  function MaterialOf(p: Platform, device: Device, scene: Scene, mat: SceneMaterial, basePath: string): Material {
    Material(diffuse := ChannelView(p, device, scene, mat, Diffuse, basePath),
             specular := ChannelView(p, device, scene, mat, Specular, basePath),
             roughness := ChannelView(p, device, scene, mat, Ambient, basePath),
             normal := ChannelView(p, device, scene, mat, Height, basePath))
  }

  /** `LoadMaterial`: diffuse, specular, height and ambient channels, in this
      order, fill the diffuse, specular, normal and roughness slots. */
  function LoadMaterial(p: Platform, device: Device, scene: Scene, mat: SceneMaterial,
                        basePath: string, e: Effects): (r: (Material, Effects))
    ensures forall s: Slot :: SlotView(r.0, s) == ChannelView(p, device, scene, mat, SlotChannel(s), basePath)
  {
    var d := LoadChannel(p, device, scene, mat, Diffuse, basePath, e);
    var s := LoadChannel(p, device, scene, mat, Specular, basePath, d.effects);
    var n := LoadChannel(p, device, scene, mat, Height, basePath, s.effects);
    var a := LoadChannel(p, device, scene, mat, Ambient, basePath, n.effects);
    (Material(diffuse := d.view, specular := s.view, roughness := a.view, normal := n.view), a.effects)
  }

  /** Slot `s` holds exactly what channel `SlotChannel(s)` resolves to, a
      channel without a texture path leaves its slot empty, and what earlier
      calls logged does not change the material. */
  lemma LoadMaterialSlots(p: Platform, device: Device, scene: Scene, mat: SceneMaterial,
                          basePath: string, e: Effects)
    ensures var m := LoadMaterial(p, device, scene, mat, basePath, e).0;
            && m == MaterialOf(p, device, scene, mat, basePath)
            && forall s: Slot :: TexturePath(mat, SlotChannel(s)).None? ==> SlotView(m, s).None?
  {
    var m := LoadMaterial(p, device, scene, mat, basePath, e).0;
    assert SlotView(m, DiffuseSlot) == ChannelView(p, device, scene, mat, Diffuse, basePath);
    assert SlotView(m, SpecularSlot) == ChannelView(p, device, scene, mat, Specular, basePath);
    assert SlotView(m, NormalSlot) == ChannelView(p, device, scene, mat, Height, basePath);
    assert SlotView(m, RoughnessSlot) == ChannelView(p, device, scene, mat, Ambient, basePath);
  }

  /** Only the four mapped channels matter: two scene materials with the
      same texture paths on diffuse, specular, height and ambient load to the
      same material, whatever their other channels hold. */
  lemma LoadMaterialReadsFourChannels(p: Platform, device: Device, scene: Scene,
                                      mat1: SceneMaterial, mat2: SceneMaterial, basePath: string)
    requires forall s: Slot :: TexturePath(mat1, SlotChannel(s)) == TexturePath(mat2, SlotChannel(s))
    ensures MaterialOf(p, device, scene, mat1, basePath) == MaterialOf(p, device, scene, mat2, basePath)
  {
    assert TexturePath(mat1, SlotChannel(DiffuseSlot)) == TexturePath(mat2, SlotChannel(DiffuseSlot));
    assert TexturePath(mat1, SlotChannel(SpecularSlot)) == TexturePath(mat2, SlotChannel(SpecularSlot));
    assert TexturePath(mat1, SlotChannel(NormalSlot)) == TexturePath(mat2, SlotChannel(NormalSlot));
    assert TexturePath(mat1, SlotChannel(RoughnessSlot)) == TexturePath(mat2, SlotChannel(RoughnessSlot));
  }

  /** A material without any texture path loads to the empty material and
      neither logs nor calls anything. */
  lemma LoadBareMaterial(p: Platform, device: Device, scene: Scene, mat: SceneMaterial,
                         basePath: string, e: Effects)
    requires forall s: Slot :: TexturePath(mat, SlotChannel(s)).None?
    ensures LoadMaterial(p, device, scene, mat, basePath, e) == (EmptyMaterial, e)
  {
    assert TexturePath(mat, SlotChannel(DiffuseSlot)).None?;
    assert TexturePath(mat, SlotChannel(SpecularSlot)).None?;
    assert TexturePath(mat, SlotChannel(NormalSlot)).None?;
    assert TexturePath(mat, SlotChannel(RoughnessSlot)).None?;
  }

  lemma LoadMaterialAppends(p: Platform, device: Device, scene: Scene, mat: SceneMaterial,
                            basePath: string, e: Effects)
    ensures TextureCallsOnly(e, LoadMaterial(p, device, scene, mat, basePath, e).1)
  {
    var d := LoadChannel(p, device, scene, mat, Diffuse, basePath, e);
    var s := LoadChannel(p, device, scene, mat, Specular, basePath, d.effects);
    var n := LoadChannel(p, device, scene, mat, Height, basePath, s.effects);
    var a := LoadChannel(p, device, scene, mat, Ambient, basePath, n.effects);
    LoadChannelAppends(p, device, scene, mat, Diffuse, basePath, e);
    LoadChannelAppends(p, device, scene, mat, Specular, basePath, d.effects);
    LoadChannelAppends(p, device, scene, mat, Height, basePath, s.effects);
    LoadChannelAppends(p, device, scene, mat, Ambient, basePath, n.effects);
    TextureCallsOnlyTransitive(e, d.effects, s.effects);
    TextureCallsOnlyTransitive(e, s.effects, n.effects);
    TextureCallsOnlyTransitive(e, n.effects, a.effects);
  }

  /** The material loop of `LoadModel`: one material per scene material, in
      decode order. */
  function LoadMaterials(p: Platform, device: Device, scene: Scene, mats: seq<SceneMaterial>,
                         basePath: string, e: Effects): (r: (seq<Material>, Effects))
    ensures |r.0| == |mats|
    ensures forall i :: 0 <= i < |mats| ==> r.0[i] == MaterialOf(p, device, scene, mats[i], basePath)
    ensures TextureCallsOnly(e, r.1)
    decreases |mats|
  {
    if mats == [] then ([], e)
    else
      var (m, e1) := LoadMaterial(p, device, scene, mats[0], basePath, e);
      LoadMaterialSlots(p, device, scene, mats[0], basePath, e);
      LoadMaterialAppends(p, device, scene, mats[0], basePath, e);
      var (rest, e2) := LoadMaterials(p, device, scene, mats[1..], basePath, e1);
      TextureCallsOnlyTransitive(e, e1, e2);
      ([m] + rest, e2)
  }

  /** The calls creating the buffers of `meshes`, mesh after mesh. */
  function BufferCalls(meshes: seq<SceneMesh>): (r: seq<Call>)
    requires forall i :: 0 <= i < |meshes| ==> MeshReadable(meshes[i])
    ensures |r| == 2 * |meshes|
    ensures forall i :: 0 <= i < |r| ==> r[i].CreateBuffer?
  {
    if meshes == [] then [] else MeshCalls(MeshOf(meshes[0])) + BufferCalls(meshes[1..])
  }

  /** The mesh loop of `LoadModel`: one mesh per scene mesh, in decode order. */
  function LoadMeshes(meshes: seq<SceneMesh>, e: Effects): (r: (seq<Mesh>, Effects))
    requires forall i :: 0 <= i < |meshes| ==> MeshReadable(meshes[i])
    ensures |r.0| == |meshes|
    ensures forall i :: 0 <= i < |meshes| ==> r.0[i] == MeshOf(meshes[i])
    ensures r.1 == Effects(e.log, e.calls + BufferCalls(meshes))
    decreases |meshes|
  {
    if meshes == [] then ([], e)
    else
      var (m, e1) := LoadMesh(meshes[0], e);
      var (rest, e2) := LoadMeshes(meshes[1..], e1);
      ([m] + rest, e2)
  }

  /** The one log line of a failed import: path and importer diagnostic. */
  function ImportFailureMessage(path: string, error: string): string {
    "Failed to load model asset.\n\nPath: " + path + "\nError: " + error
  }

  datatype ModelLoad = ModelLoad(model: Option<Model>, effects: Effects)

  /** Whether the import of `path` yields a model at all. */
  predicate ImportSucceeds(p: Platform, path: string) {
    p.readFile(path).scene.Some? && HasMeshes(p.readFile(path).scene.value)
  }

  /** Reference definition of the model a path loads to, free of effects:
      none when the import fails; otherwise named after the file, with one
      mesh per scene mesh and one material per scene material, textures
      resolved against the parent directory. */
  function ModelOf(p: Platform, device: Device, path: string): Option<Model>
    requires ImportReadable(p.readFile(path))
    requires ImportSucceeds(p, path) ==> device.Device?
  {
    if !ImportSucceeds(p, path) then None
    else
      var scene := p.readFile(path).scene.value;
      var basePath := p.parentPath(path);
      Some(Model(p.fileName(path),
                 seq(|scene.meshes|, i requires 0 <= i < |scene.meshes| => MeshOf(scene.meshes[i])),
                 seq(|scene.materials|, i requires 0 <= i < |scene.materials| =>
                       MaterialOf(p, device, scene, scene.materials[i], basePath))))
  }

  /** The success branch of `LoadModel`: every material, then every mesh,
      after the import. It builds exactly the reference model and calls the
      importer no further. */
  function BuildModel(p: Platform, device: Device, path: string, e: Effects): (r: ModelLoad)
    requires ImportReadable(p.readFile(path)) && ImportSucceeds(p, path)
    requires device.Device?
    ensures r.model == ModelOf(p, device, path)
    ensures Extends(e, r.effects)
    ensures forall i :: 0 <= i < |AddedCalls(e, r.effects)| ==> !AddedCalls(e, r.effects)[i].ReadFile?
  {
    var scene := p.readFile(path).scene.value;
    var (materials, e2) := LoadMaterials(p, device, scene, scene.materials, p.parentPath(path), e);
    var (meshes, e3) := LoadMeshes(scene.meshes, e2);
    ExtendsTransitive(e, e2, e3);
    assert AddedCalls(e, e3) == AddedCalls(e, e2) + BufferCalls(scene.meshes);
    assert meshes == ModelOf(p, device, path).value.meshes;
    assert materials == ModelOf(p, device, path).value.materials;
    ModelLoad(Some(Model(p.fileName(path), meshes, materials)), e3)
  }

  /** `AssetLoader::LoadModel`: import once with the fixed post-processing
      flags; on failure log one line and return nothing; on success build
      the model. Whatever the effects before, the model is the reference
      one. */
  function LoadModel(p: Platform, device: Device, path: string, e: Effects): (r: ModelLoad)
    requires ImportReadable(p.readFile(path))
    // every successful import has a mesh, whose buffers `LoadMesh` creates
    // through the device without a null check
    requires ImportSucceeds(p, path) ==> device.Device?
    ensures r.model == ModelOf(p, device, path)
    ensures r.model.Some? <==> ImportSucceeds(p, path)
    ensures Extends(e, r.effects)
    // the importer is called exactly once, before anything else
    ensures |AddedCalls(e, r.effects)| >= 1 && AddedCalls(e, r.effects)[0] == ReadFile(path, IMPORT_FLAGS)
    ensures forall i :: 1 <= i < |AddedCalls(e, r.effects)| ==> !AddedCalls(e, r.effects)[i].ReadFile?
  {
    var imported := p.readFile(path);
    var e1 := Emit(e, [ReadFile(path, IMPORT_FLAGS)]);
    if imported.scene.None? || !HasMeshes(imported.scene.value) then
      ModelLoad(None, Note(e1, ImportFailureMessage(path, imported.errorString)))
    else
      var built := BuildModel(p, device, path, e1);
      ExtendsTransitive(e, e1, built.effects);
      assert AddedCalls(e, built.effects) == [ReadFile(path, IMPORT_FLAGS)] + AddedCalls(e1, built.effects);
      built
  }

  /** A failed import (no scene, or a scene without meshes) returns no model,
      makes only the importer call and logs exactly one entry naming the path
      and the importer's diagnostic. */
  lemma LoadModelFailure(p: Platform, device: Device, path: string, e: Effects)
    requires ImportReadable(p.readFile(path))
    requires !ImportSucceeds(p, path)
    ensures var r := LoadModel(p, device, path, e);
            && r.model.None?
            && r.effects.calls == e.calls + [ReadFile(path, IMPORT_FLAGS)]
            && r.effects.log.entries
               == e.log.entries + [LogEntry(ImportFailureMessage(path, p.readFile(path).errorString), Info)]
  {
  }

  /** A successful import: the model is named after the file-name component
      of the path; it has one material per scene material and one mesh per
      scene mesh, both in decode order; textures resolve against the parent
      directory of the path; the importer is called once with the fixed
      post-processing flags; and every material is built before any mesh is:
      the calls after the import are texture calls only, followed by exactly
      the buffer creations of the meshes. */
  lemma LoadModelSuccess(p: Platform, device: Device, path: string, e: Effects)
    requires ImportReadable(p.readFile(path))
    requires ImportSucceeds(p, path) && device.Device?
    ensures var r := LoadModel(p, device, path, e);
            var scene := p.readFile(path).scene.value;
            && r.model.Some?
            && r.model.value.name == p.fileName(path)
            && |r.model.value.materials| == |scene.materials|
            && (forall i :: 0 <= i < |scene.materials| ==>
                  r.model.value.materials[i] == MaterialOf(p, device, scene, scene.materials[i], p.parentPath(path)))
            && |r.model.value.meshes| == |scene.meshes|
            && (forall i :: 0 <= i < |scene.meshes| ==> r.model.value.meshes[i] == MeshOf(scene.meshes[i]))
            && exists textureCalls: seq<Call> ::
                 && (forall i :: 0 <= i < |textureCalls| ==> IsTextureCall(textureCalls[i]))
                 && r.effects.calls
                    == e.calls + [ReadFile(path, IMPORT_FLAGS)] + textureCalls + BufferCalls(scene.meshes)
  {
    var scene := p.readFile(path).scene.value;
    var e1 := Emit(e, [ReadFile(path, IMPORT_FLAGS)]);
    var (materials, e2) := LoadMaterials(p, device, scene, scene.materials, p.parentPath(path), e1);
    var textureCalls := AddedCalls(e1, e2);
    assert e2.calls == e1.calls + textureCalls;
  }

  /** Materials before meshes, made visible: the loaded model's meshes keep
      their decoder material indices unchecked, so when the scene's indices
      address its materials every mesh addresses an existing material of the
      model, and when its faces address existing vertices every emitted index
      addresses an existing vertex. */
  lemma LoadedModelConsistent(p: Platform, device: Device, path: string)
    requires ImportReadable(p.readFile(path))
    requires ImportSucceeds(p, path) && device.Device?
    ensures var m := ModelOf(p, device, path).value;
            var scene := p.readFile(path).scene.value;
            && (forall i :: 0 <= i < |m.meshes| ==> m.meshes[i].materialIndex == scene.meshes[i].materialIndex)
            && (MaterialIndicesInRange(scene) ==>
                  forall i :: 0 <= i < |m.meshes| ==> m.meshes[i].materialIndex < |m.materials|)
            && (forall i :: 0 <= i < |scene.meshes| && FacesInRange(scene.meshes[i]) ==>
                  forall j :: 0 <= j < |m.meshes[i].indexBuffer.value.data.indices| ==>
                    m.meshes[i].indexBuffer.value.data.indices[j]
                    < |m.meshes[i].vertexBuffer.value.data.vertices|)
  {
    var scene := p.readFile(path).scene.value;
    forall i | 0 <= i < |scene.meshes| && FacesInRange(scene.meshes[i])
      ensures var m := ModelOf(p, device, path).value;
              forall j :: 0 <= j < |m.meshes[i].indexBuffer.value.data.indices| ==>
                m.meshes[i].indexBuffer.value.data.indices[j]
                < |m.meshes[i].vertexBuffer.value.data.vertices|
    {
      LoadMeshIndicesInRange(scene.meshes[i]);
    }
  }
}
