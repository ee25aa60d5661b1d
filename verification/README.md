# Shellshock viewer core in Dafny

A model of the decision layer of the Shellshock Direct3D 11 model viewer.
It covers:

- the scene-to-model importer (`AssetLoader::LoadModel` with `LoadMesh`,
  `LoadMaterial`, `LoadMaterialTexture` and `TexturePath`);
- texture resolution (`Texture::Load`, `LoadEmbeddedCompressed`, and the WIC
  loader `LoadWIC` / `LoadTextureWIC`);
- the editor's deferred command queue (`ProcessUICommands`, `Update`);
- the frame's draw sequence (`Render`, `DrawModel`, the input layout built in
  `LoadAssets`);
- the diagnostic logger of `log.h` and the data types of `model.h`.

The scene decoder, the image decoders, the DDS loader and `std::filesystem`
path parsing are foreign code. Each is one function-typed field of a
`Platform` value (`foreign.dfy`):

- `readFile` for the importer;
- `ddsFromFile` and `wicFromMemory` for the two DirectXTK loaders;
- `wicFile` for the answers every step of the WIC file loader gives,
  including the device's texture and view creation;
- `parentPath`, `fileName`, `extension` and `joinPath` for paths.

GPU buffer creation has no field: it is assumed to succeed, and each one
is recorded as a call carrying the buffer's descriptor and contents. Every
importer, texture-loader and buffer-creation call is appended to an explicit
`Effects` value, alongside the logger. Path queries and the WIC loader's
`GetSize` are not recorded, and a frame's draw calls are returned as their
own list. Because the calls are recorded, call order, early exits and "logs exactly one line" can be stated as
contracts. Each effectful operation is paired with an effect-free reference
definition:

| operation | reference |
|---|---|
| `Texture.Load` | `ResolveView` |
| `LoadEmbeddedCompressed` | `EmbeddedView` |
| `LoadChannel` | `ChannelView` |
| `LoadMaterial` | `MaterialOf` |
| `LoadMesh` | `MeshOf` |
| `LoadModel` | `ModelOf` |
| `Drain` | `Replay` |

Lemmas connect each operation with its reference.

Modules, one per file:

- `Basics`: u32 wrap-around, HRESULT, `Option`, float bit patterns.
- `Log`: the diagnostic log as an explicit entry list.
- `Format`: the `{:08X}` rendering of HRESULTs.
- `Scene`: the decoded scene.
- `Model`.
- `Wic`.
- `Foreign`.
- `Texture`.
- `MeshImport`.
- `AssetLoader`.
- `Render`.
- `Editor`.

## Model

| member | source | states |
|---|---|---|
| Log.TypeString | src/log.h:13-21 | INFO maps to "[INFO] " and every other type to "[UNKNOWN] ", in both directions |
| Log.AsString | src/log.h:23 | the rendering starts with the type's tag and the rest is exactly the message |
| Log.AsStringRoundTrip | src/log.h:23 | the rendered entry (tag followed by message) can be parsed back into the same entry |
| Log.LogInfo | src/log.h:28 | exactly one INFO entry is appended at the end; the earlier entries are unchanged |
| Log.GetAllInInsertionOrder | src/log.h:30-40 | after logging a list of messages, the entries are the old ones followed by one INFO entry per message, in order |
| Log.Clear | src/log.h:29 | no entry is reported after a clear |
| Log.ClearForgetsEarlier | src/log.h:29 | after a clear, the log holds exactly the entries logged since, in order |
| Format.Hex8RoundTrip | src/texture.cpp:38 | the 8-digit upper-case hex rendering of a 32-bit value parses back to that value |
| Model.VertexLayout | src/model.h:13-17 | vertex fields sit at byte offsets 0, 12 and 24, and a vertex is 32 bytes |
| Wic.LoadWic | src/texture.cpp:64-119 | a null device or file name gives null with no call; otherwise a view comes back exactly when all eight steps succeed, and it is the created view |
| Wic.LoadWicEarlyExit | src/texture_wic.cpp:17-72 | the calls made are a prefix of the step plan; every call before the last succeeded; on failure the last call is the failing one and nothing after it runs |
| Wic.PixelBufferArithmetic | src/texture.cpp:93-109 | the copy uses stride width*4 and buffer size width*height*4, both mod 2^32, and exact when they fit |
| Wic.TextureDescriptorFixed | src/texture_wic.cpp:50-64 | the texture is created with 1 mip, 1 slice, RGBA8, immutable usage, shader-resource bind, and upload pitch equal to the copy stride |
| Texture.DdsExtensionCaseInsensitive | src/texture.cpp:25-30 | an extension selects the DDS loader if and only if it is ".dds" in any letter case |
| Texture.Load | src/texture.cpp:23-43 | the view is the reference resolution; a DDS hit makes only the DDS call; a DDS miss logs one line and falls through to WIC; other extensions go straight to WIC |
| Texture.LoadRouting | src/texture.cpp:30-42 | per route, the exact calls made and log growth: none for a hit or non-DDS file, one entry for a DDS miss |
| Texture.LoadEmbeddedCompressed | src/texture.cpp:45-61 | a null device gives null with no effect; otherwise one in-memory decode; a failure logs exactly one line naming the HRESULT and gives null |
| Texture.LoadAppendsTextureCalls | src/texture.cpp:23-43 | resolving a file only appends texture calls and at most one log entry |
| MeshImport.BuildMeshData | src/asset_loader.cpp:57-70 | the two loops produce vertex i from position i, normal i and UV0 i's x,y, and exactly the flattened faces as indices |
| MeshImport.FlattenFaces | src/asset_loader.cpp:65-70 | entry 3i+k of the index sequence is index k of face i |
| MeshImport.FlattenInRange | src/asset_loader.cpp:65-70 | if every face index addresses an existing vertex, so does every emitted index |
| MeshImport.LoadMeshContents | src/asset_loader.cpp:55-93 | the vertex buffer holds the copied vertices; the index buffer holds 3 indices per face with indexCount its length; the material index is copied unchecked; byte widths are 32n and 4m mod 2^32 with vertex/index bind flags |
| MeshImport.LoadMesh | src/asset_loader.cpp:55-93 | returns the reference mesh and creates its vertex buffer, then its index buffer, logging nothing |
| AssetLoader.TexturePath | src/asset_loader.cpp:129-135 | a path is returned if and only if the channel has a texture, and it is the one at index 0 |
| AssetLoader.LoadMaterialTexture | src/asset_loader.cpp:95-109 | an embedded texture with height 0 resolves to the in-memory decoder's view of its bytes; any other reference resolves as the file base/path does; only texture calls and at most one log entry are added |
| AssetLoader.MaterialTextureRoutes | src/asset_loader.cpp:95-109 | an embedded texture with height 0 is decoded from memory with its width as byte count; an embedded raw texture and a non-embedded one both load the file at base/path |
| AssetLoader.LoadMaterial | src/asset_loader.cpp:111-127 | each slot holds the view of its channel: diffuse from DIFFUSE, specular from SPECULAR, normal from HEIGHT, roughness from AMBIENT |
| AssetLoader.LoadMaterialSlots | src/asset_loader.cpp:111-127 | slot diffuse/specular/normal/roughness holds what channel DIFFUSE/SPECULAR/HEIGHT/AMBIENT resolves to; a channel without a path leaves its slot empty |
| AssetLoader.LoadMaterialReadsFourChannels | src/asset_loader.cpp:111-127 | materials agreeing on the four mapped channels load to the same material |
| AssetLoader.LoadBareMaterial | src/asset_loader.cpp:111-127 | a material with no texture paths loads to the empty material without any call or log |
| AssetLoader.LoadMaterials | src/asset_loader.cpp:42-44 | one material per scene material, in decode order; only texture calls are added |
| AssetLoader.LoadMeshes | src/asset_loader.cpp:46-48 | one mesh per scene mesh, in decode order; exactly the buffer creations are added |
| AssetLoader.BuildModel | src/asset_loader.cpp:36-50 | the success branch builds exactly the reference model and never calls the importer |
| AssetLoader.LoadModel | src/asset_loader.cpp:24-51 | the model is the reference model; it is present if and only if the import yields a scene with meshes; the importer is called once, first, with the fixed flags |
| AssetLoader.LoadModelFailure | src/asset_loader.cpp:30-34 | a failed import returns none, makes only the import call and logs exactly one line with path and diagnostic |
| AssetLoader.LoadModelSuccess | src/asset_loader.cpp:36-50 | name is the file name; one material per scene material and one mesh per scene mesh in order; all material texture calls come before all buffer creations |
| AssetLoader.LoadedModelConsistent | src/asset_loader.cpp:72-74 | material indices are copied verbatim, so in-range scene indices give in-range model indices, and in-range faces give in-range index buffers |
| Render.RenderDrawsEveryMesh | src/editor.cpp:104-106 | the frame's draw calls carry exactly the index counts of all meshes, models in list order and meshes in order |
| Render.RenderFrame | src/editor.cpp:83-110 | the frame starts with the fixed pipeline setup and ends with the UI render and present(1, 0) |
| Render.DrawModel | src/editor.cpp:112-127 | four calls per mesh, and the draw calls carry the meshes' index counts in mesh order |
| Render.DrawModelBindsMaterial | src/editor.cpp:112-127 | mesh i's four calls bind its material's diffuse, specular, normal and roughness to slots 0-3, bind the buffers with stride 32 and 32-bit indices, and draw its index count |
| Render.InputLayoutMatchesVertex | src/editor.cpp:146-149 | the three input elements match the vertex fields in order, width and byte offset, and tile the 32-byte stride |
| Editor.Replay | src/editor.cpp:180-184 | replaying load outcomes leaves the models unchanged or exactly one model that some load produced |
| Editor.ReplayKeepsLastSuccess | src/editor.cpp:174-189 | after replay the models are the last successful load's model, or unchanged if none succeeded |
| Editor.Drain | src/editor.cpp:174-188 | draining the queue equals the replay of its load outcomes, and asks the importer for the queued paths in queue order |
| Editor.LoaderLawful | src/editor.cpp:180 | the asset loader called from the queue appends effects, imports only its own path, and yields the reference model whatever the prior effects |
| Editor.ProcessUICommands | src/editor.cpp:172-190 | the queue ends empty; the models are the replay of the reference outcomes, so unchanged or one model; the importer sees exactly the queued paths |
| Editor.ProcessKeepsLastSuccess | src/editor.cpp:180-189 | the editor holds exactly the last loading command's model, or unchanged models when none loads |
| Editor.ProcessKeepsDrawable | src/editor.cpp:115 | if held models and queued scenes address existing materials, so do the models after processing |
| Editor.GuiUpdate | src/gui/gui.cpp:58-65 | a confirmed dialog appends one load command for the chosen path; otherwise nothing changes |
| Editor.Update | src/editor.cpp:129-135 | the queue ends empty; the models are the replay of the pending commands followed by the one the dialog added; the importer sees the pending paths, then the chosen path |
| Editor.UpdateLoadsChosenPath | src/editor.cpp:129-135 | the UI runs before the drain: a path chosen this frame is loaded in the same update, replacing the models on success |
| Editor.Frame | src/main.cpp:22-27 | a paint runs the update, then renders the models it left, which stay drawable |
| Editor.Run | src/editor.cpp:172-190 | from start-up (no models), any number of updates keeps at most one model and an empty queue |

## Left out

- Camera, matrices and the clear colour: float math, not modelled. The transform upload in `Render` is one opaque `UpdateTransform` call.
- Device, swap-chain, shader and pipeline-object creation in `Init` and `LoadAssets` is I/O against D3D. Only the input layout's three elements are modelled.
- ImGui widgets and the Win32 message loop are left out. Only the dialog's push of a load command (`GuiUpdate`) and the update-then-render order of a paint (`Frame`) are modelled.
- `EditorCommand` is declared in actions.h, which is not part of this model. The model assumes `LoadModelCommand` is its only alternative. The visitor's `is_same_v` filter at editor.cpp:179 suggests there may be others. `ProcessUICommands` would skip them and then clear them with the rest of the queue, but this is not modelled.
- `ASSERT_SUCCEEDED` is defined in `utility.h`, which is not part of this model. `Wic.LoadWic` models only the path on which a failed step returns null. Whether the assertion aborts first is not modelled.
- The same applies to buffer creation in `LoadMesh` and to `Present`: the model assumes they succeed, and their abort on failure is not modelled. Buffer creation certainly fails for a mesh with no vertices or no faces. Its buffer then has `ByteWidth` 0 (asset_loader.cpp:78, 86), which D3D11 rejects, so the `ASSERT_SUCCEEDED` at asset_loader.cpp:82/90 fires. `LoadModel` in the model still returns a model.
- The `GetSize` query in the WIC loader returns no status the loader checks. It is not recorded as a call, and its answer is an input of the model.
- Path handling (`parent_path`, `filename`, `extension`, `operator/`) is opaque `Platform` functions. Windows path grammar is not modelled.
- The narrow/wide path conversions are treated as identity: `fullPath.wstring()` at asset_loader.cpp:108 and `p.string()` at texture.cpp:38, which logs the file name of a failed DDS load. A conversion through the system code page that replaces unmappable characters is not modelled. Neither is one that throws on an unpaired surrogate, which would abort the load before the WIC fallback.
- `ToLowerAscii` folds only 'A'-'Z', as `std::tolower` does in the "C" locale. Wide-character locales are not modelled.
- Float values are opaque 32-bit patterns that are only copied. No float arithmetic is modelled.
- `AssetLoader.LoadModel` requires `ImportReadable` of a scene that has meshes:
  - every mesh carries normals and UV0;
  - every face has at least three indices;
  - the counts fit the source's 32-bit arithmetic: fewer than 2^32 materials, meshes and vertices, and `3 * faces < 2^32`.

  The source reads the channels and indices unchecked. Past the last bound, `mNumFaces * 3` wraps at asset_loader.cpp:65 and the index loop writes beyond the vector. Other inputs are undefined behaviour, not an error path.
- `AssetLoader.LoadModel` requires a non-null device whenever the import succeeds. `LoadMesh` calls `device->CreateBuffer` without a check. The editor's device exists once `D3D11CreateDeviceAndSwapChain` succeeded, so the editor operations require `device.Device?` throughout.
- `Texture.Load` with a null device still consults the DDS loader's answer for the file. DirectXTK's own argument checks are not part of this model. The asset loader never reaches this case with a null device.
- Foreign components are deterministic functions of their arguments. Loading the same path twice gives the same scene and the same view handles, so the model does not distinguish freshly created GPU objects from earlier ones. It also does not model a file that changes between loads.
- `Mesh`'s default member values are not modelled. `LoadMesh` sets `indexCount` and `materialIndex` before returning.
- `Render.DrawModel` requires every mesh to address an existing material. The source indexes `materials` unchecked, so other inputs are undefined behaviour.
- `Editor.Update` omits the camera step (`HandleMouse`, `LookAt`), which touches only the camera and the view matrix; `EditorState` holds neither.

Behaviour of the code worth knowing:

- An embedded uncompressed texture (height not 0) reaches an empty branch. It then falls through to loading `base/path` from disk, like a texture that is not embedded.
- Missing normals or UV0 are not guarded. They are a precondition.
- A failed WIC load returns null without logging. Only the DDS and in-memory decoder failures log.
- `Model` has no position field, although `LoadModel` assigns one. The model drops the assignment.
- `gui.h` declares `Update` with a metadata argument, but the editor calls it with none. The model follows the call.
