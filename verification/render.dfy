/** The draw side of the editor (src/editor.cpp): `Render`, `DrawModel` and
    the input layout created in `LoadAssets`. A frame's rendering is the list
    of device-context calls it issues; matrices and colours are left out. */
module Render {

  import opened Basics
  import opened Model

  datatype Topology = TriangleList

  /** `D3D11_CLEAR_FLAG`: which planes of the depth-stencil view to clear. */
  datatype ClearFlag = ClearDepth | ClearStencil

  /** `1.0f` as IEEE-754 single-precision bits, the far-plane depth. */
  const ONE_F32: Float := Float(0x3F80_0000)

  /** One call on the immediate device context. */
  datatype ContextCall =
    | UpdateTransform
    | SetConstantBuffers
    | SetRasterizerState
    | SetRenderTargets
    | ClearRenderTarget
    | ClearDepthStencil(clearFlags: set<ClearFlag>, depth: Float, stencil: nat)
    | SetInputLayout
    | SetTopology(topology: Topology)
    | SetVertexShader
    | SetPixelShader
    | SetSamplers
    | SetShaderResources(startSlot: nat, views: seq<Option<Srv>>)
    | SetVertexBuffer(buffer: Option<GpuBuffer>, stride: nat, offset: nat)
    | SetIndexBuffer(buffer: Option<GpuBuffer>, format: DxgiFormat, offset: nat)
    | DrawIndexed(indexCount: u32, startIndex: nat, baseVertex: nat)
    | RenderGui
    | Present(syncInterval: nat, flags: nat)

  /** The pipeline state `Render` sets before drawing (the transform upload
      stands for the matrix product, which is not modelled). */
  const FRAME_SETUP: seq<ContextCall> := [
    UpdateTransform, SetConstantBuffers, SetRasterizerState, SetRenderTargets,
    ClearRenderTarget, ClearDepthStencil({ClearDepth, ClearStencil}, ONE_F32, 0), SetInputLayout, SetTopology(TriangleList),
    SetVertexShader, SetPixelShader, SetSamplers ]

  /** What `Render` does after drawing: the UI, then present with vsync. */
  const FRAME_END: seq<ContextCall> := [RenderGui, Present(1, 0)]

  /** The four views bound for a material, slots 0..3: diffuse, specular,
      normal, roughness; an absent texture is bound as null. */
  function MaterialViews(m: Material): (r: seq<Option<Srv>>)
    ensures |r| == 4
  {
    [m.diffuse, m.specular, m.normal, m.roughness]
  }

  /** The calls drawing one mesh with its material. */
  function MeshDraw(mesh: Mesh, material: Material): seq<ContextCall> {
    [ SetShaderResources(0, MaterialViews(material)),
      SetVertexBuffer(mesh.vertexBuffer, VertexSize(), 0),
      SetIndexBuffer(mesh.indexBuffer, R32Uint, 0),
      DrawIndexed(mesh.indexCount, 0, 0) ]
  }

  /** Every mesh of the model names one of its materials: `DrawModel` reads
      `model.materials[mesh.materialIndex]` unchecked. */
  predicate Drawable(model: Model) {
    forall i :: 0 <= i < |model.meshes| ==> model.meshes[i].materialIndex < |model.materials|
  }

  predicate AllDrawable(models: seq<Model>) {
    forall i :: 0 <= i < |models| ==> Drawable(models[i])
  }

  /** Draw calls of the meshes `meshes` of `model`, in order. */
  function DrawMeshes(model: Model, meshes: seq<Mesh>): (r: seq<ContextCall>)
    requires forall i :: 0 <= i < |meshes| ==> meshes[i].materialIndex < |model.materials|
    ensures |r| == 4 * |meshes|
  {
    if meshes == [] then []
    else MeshDraw(meshes[0], model.materials[meshes[0].materialIndex]) + DrawMeshes(model, meshes[1..])
  }

  /** `DrawModel`. */
  function DrawModel(model: Model): (r: seq<ContextCall>)
    requires Drawable(model)
    ensures |r| == 4 * |model.meshes|
    // one indexed draw per mesh, in mesh order, with the mesh's index count
    ensures DrawCounts(r) == IndexCounts(model.meshes)
  {
    DrawMeshesCounts(model, model.meshes);
    DrawMeshes(model, model.meshes)
  }

  function DrawModels(models: seq<Model>): seq<ContextCall>
    requires AllDrawable(models)
  {
    if models == [] then [] else DrawModel(models[0]) + DrawModels(models[1..])
  }

  /** `Render`: fixed pipeline state, every model in list order, the UI,
      then present with vsync. */
  function RenderFrame(models: seq<Model>): (r: seq<ContextCall>)
    requires AllDrawable(models)
    ensures |r| == |FRAME_SETUP| + |DrawModels(models)| + 2
    ensures r[..|FRAME_SETUP|] == FRAME_SETUP
    ensures r[|r| - 2..] == FRAME_END
  {
    FRAME_SETUP + DrawModels(models) + FRAME_END
  }

  /** The index counts of the draw calls in a call list, in order. */
  function DrawCounts(calls: seq<ContextCall>): seq<u32> {
    if calls == [] then []
    else (if calls[0].DrawIndexed? then [calls[0].indexCount] else []) + DrawCounts(calls[1..])
  }

  /** The index counts of the meshes of `models`, model after model. */
  function IndexCounts(meshes: seq<Mesh>): (r: seq<u32>)
    ensures |r| == |meshes|
    ensures forall i :: 0 <= i < |meshes| ==> r[i] == meshes[i].indexCount
  {
    seq(|meshes|, i requires 0 <= i < |meshes| => meshes[i].indexCount)
  }

  function ModelIndexCounts(models: seq<Model>): seq<u32> {
    if models == [] then [] else IndexCounts(models[0].meshes) + ModelIndexCounts(models[1..])
  }

  lemma {:induction false} DrawCountsAppend(a: seq<ContextCall>, b: seq<ContextCall>)
    ensures DrawCounts(a + b) == DrawCounts(a) + DrawCounts(b)
  {
    if a == [] {
      assert a + b == b;
    } else {
      assert (a + b)[0] == a[0];
      assert (a + b)[1..] == a[1..] + b;
      DrawCountsAppend(a[1..], b);
    }
  }

  lemma {:induction false} DrawMeshesCounts(model: Model, meshes: seq<Mesh>)
    requires forall i :: 0 <= i < |meshes| ==> meshes[i].materialIndex < |model.materials|
    ensures DrawCounts(DrawMeshes(model, meshes)) == IndexCounts(meshes)
  {
    if meshes != [] {
      var first := MeshDraw(meshes[0], model.materials[meshes[0].materialIndex]);
      DrawCountsAppend(first, DrawMeshes(model, meshes[1..]));
      DrawMeshesCounts(model, meshes[1..]);
      assert DrawCounts(first) == [meshes[0].indexCount] by {
        var c := first;
        assert c == [c[0]] + [c[1]] + [c[2]] + [c[3]];
        DrawCountsAppend([c[0]] + [c[1]] + [c[2]], [c[3]]);
        DrawCountsAppend([c[0]] + [c[1]], [c[2]]);
        DrawCountsAppend([c[0]], [c[1]]);
        assert [c[3]][1..] == [];
      }
      assert IndexCounts(meshes) == [meshes[0].indexCount] + IndexCounts(meshes[1..]);
    }
  }

  lemma {:induction false} DrawModelsCounts(models: seq<Model>)
    requires AllDrawable(models)
    ensures DrawCounts(DrawModels(models)) == ModelIndexCounts(models)
  {
    if models != [] {
      DrawCountsAppend(DrawModel(models[0]), DrawModels(models[1..]));
      DrawMeshesCounts(models[0], models[0].meshes);
      DrawModelsCounts(models[1..]);
    }
  }

  /** One indexed draw per mesh, in order: the draw calls of a frame carry
      exactly the index counts of the meshes, models in list order and each
      model's meshes in order. */
  lemma RenderDrawsEveryMesh(models: seq<Model>)
    requires AllDrawable(models)
    ensures DrawCounts(RenderFrame(models)) == ModelIndexCounts(models)
  {
    var body := DrawModels(models);
    assert RenderFrame(models) == FRAME_SETUP + body + FRAME_END;
    DrawCountsAppend(FRAME_SETUP, body);
    DrawCountsAppend(FRAME_SETUP + body, FRAME_END);
    DrawModelsCounts(models);
    SetupDrawsNothing();
    EndDrawsNothing();
  }

  /** The pipeline setup draws nothing. */
  lemma SetupDrawsNothing()
    ensures DrawCounts(FRAME_SETUP) == []
  {
    assert forall i :: 0 <= i < |FRAME_SETUP| ==> !FRAME_SETUP[i].DrawIndexed?;
    DrawCountsNone(FRAME_SETUP);
  }

  /** The UI and present draw no mesh. */
  lemma EndDrawsNothing()
    ensures DrawCounts(FRAME_END) == []
  {
    DrawCountsNone(FRAME_END);
  }

  lemma {:induction false} DrawCountsNone(calls: seq<ContextCall>)
    requires forall i :: 0 <= i < |calls| ==> !calls[i].DrawIndexed?
    ensures DrawCounts(calls) == []
  {
    if calls != [] {
      DrawCountsNone(calls[1..]);
    }
  }

  /** Each mesh's four calls: slots 0..3 get the diffuse, specular, normal and
      roughness views of the mesh's own material (null where absent), the
      vertex buffer is bound with stride `sizeof(Vertex)` = 32 and offset 0,
      the index buffer as 32-bit indices, and the draw uses the mesh's index
      count. */
  lemma DrawModelBindsMaterial(model: Model, i: nat)
    requires Drawable(model) && i < |model.meshes|
    ensures var mesh := model.meshes[i];
            var mat := model.materials[mesh.materialIndex];
            DrawModel(model)[4 * i..4 * i + 4]
            == [ SetShaderResources(0, [mat.diffuse, mat.specular, mat.normal, mat.roughness]),
                 SetVertexBuffer(mesh.vertexBuffer, 32, 0),
                 SetIndexBuffer(mesh.indexBuffer, R32Uint, 0),
                 DrawIndexed(mesh.indexCount, 0, 0) ]
  {
    DrawMeshesSlice(model, model.meshes, i);
    VertexLayout();
  }

  lemma {:induction false} DrawMeshesSlice(model: Model, meshes: seq<Mesh>, i: nat)
    requires forall j :: 0 <= j < |meshes| ==> meshes[j].materialIndex < |model.materials|
    requires i < |meshes|
    ensures DrawMeshes(model, meshes)[4 * i..4 * i + 4]
            == MeshDraw(meshes[i], model.materials[meshes[i].materialIndex])
  {
    var first := MeshDraw(meshes[0], model.materials[meshes[0].materialIndex]);
    if i > 0 {
      DrawMeshesSlice(model, meshes[1..], i - 1);
      assert DrawMeshes(model, meshes)[4 * i..4 * i + 4]
          == DrawMeshes(model, meshes[1..])[4 * (i - 1)..4 * (i - 1) + 4];
    }
  }

  /** `D3D11_INPUT_ELEMENT_DESC`, the fields that describe the vertex layout. */
  datatype InputElement = InputElement(semantic: string, format: DxgiFormat, offset: nat)

  /** The input layout created in `LoadAssets`. */
  const INPUT_LAYOUT: seq<InputElement> := [
    InputElement("POSITION", R32G32B32Float, 0),
    InputElement("NORMAL", R32G32B32Float, 12),
    InputElement("TEXCOORD", R32G32Float, 24) ]

  /** Number of 32-bit float components of a vertex format. */
  function FormatFloats(f: DxgiFormat): nat
    requires f == R32G32B32Float || f == R32G32Float
  {
    if f == R32G32B32Float then 3 else 2
  }

  /** The input layout agrees with `Vertex`: element `i` describes field `i`,
      with the field's width and its byte offset; the elements tile the
      vertex without gaps, and the stride used for drawing, `sizeof(Vertex)`,
      is 32 bytes. */
  lemma InputLayoutMatchesVertex()
    ensures |INPUT_LAYOUT| == |VERTEX_FIELDS|
    ensures forall i :: 0 <= i < |INPUT_LAYOUT| ==>
              && INPUT_LAYOUT[i].offset == FieldOffset(i)
              && FormatFloats(INPUT_LAYOUT[i].format) == FieldFloats(VERTEX_FIELDS[i])
    ensures VertexSize() == 32
    ensures VertexSize() == INPUT_LAYOUT[2].offset + FLOAT_BYTES * FormatFloats(INPUT_LAYOUT[2].format)
  {
    VertexLayout();
  }
}
