/** The general image-file texture loader: `LoadWIC` in src/texture.cpp and its
    copy `LoadTextureWIC` in src/texture_wic.cpp, which are the same code and
    share this one definition.

    The loader is a fixed chain of fallible calls into the Windows Imaging
    Component and the device; every step is followed by a check that returns
    null as soon as the step fails. The foreign calls are abstracted as the
    answers they give (`WicAnswers`), and the loader's observable behaviour is
    the list of calls it makes (`WicCall`) and the view it returns. */
module Wic {

  import opened Basics
  import opened Model

  /** `GUID_WICPixelFormat32bppRGBA`, the one conversion target used. */
  datatype PixelFormat = Rgba32bpp

  /** `D3D11_TEXTURE2D_DESC`, the fields the loader sets. */
  datatype TextureDesc = TextureDesc(
    width: u32,
    height: u32,
    mipLevels: nat,
    arraySize: nat,
    format: DxgiFormat,
    sampleCount: nat,
    usage: Usage,
    bindFlags: BindFlag)

  /** The fallible calls of the loader, with the arguments the core computes. */
  datatype WicCall =
    | CreateFactory
    | CreateDecoder(filename: string)
    | GetFrame(index: nat)
    | CreateConverter
    | InitializeConverter(target: PixelFormat)
    | CopyPixels(stride: u32, bufferSize: u32)
    | CreateTexture2D(desc: TextureDesc, pitch: u32)
    | CreateView

  /** What the foreign side answers, for one file: the HRESULT of each step,
      the image size reported by the converter and the view finally created. */
  datatype WicAnswers = WicAnswers(
    factory: HResult,
    decoder: HResult,
    frame: HResult,
    converter: HResult,
    initialize: HResult,
    width: u32,
    height: u32,
    copy: HResult,
    texture: HResult,
    view: HResult,
    srv: Srv)

  datatype Step = Step(call: WicCall, hr: HResult)

  /** The result of a load: the view (null on any failure) and the calls made. */
  datatype WicRun = WicRun(view: Option<Srv>, calls: seq<WicCall>)

  /** Row pitch of the RGBA buffer, `width * 4` in `UINT` arithmetic. */
  function Pitch(width: u32): u32 {
    Wrap32(width * 4)
  }

  /** Size of the RGBA pixel buffer, `width * height * 4` in `UINT` arithmetic. */
  function PixelBufferSize(width: u32, height: u32): u32 {
    Wrap32(width * height * 4)
  }

  /** The texture descriptor: one mip, one array slice, RGBA8, single sample,
      immutable, bound as a shader resource only. */
  function TextureDescFor(width: u32, height: u32): TextureDesc {
    TextureDesc(width, height, 1, 1, R8G8B8A8Unorm, 1, UsageImmutable, BindShaderResource)
  }

  /** The steps of the loader in program order, paired with their outcomes. */
  function Plan(filename: string, a: WicAnswers): seq<Step> {
    [ Step(CreateFactory, a.factory),
      Step(CreateDecoder(filename), a.decoder),
      Step(GetFrame(0), a.frame),
      Step(CreateConverter, a.converter),
      Step(InitializeConverter(Rgba32bpp), a.initialize),
      Step(CopyPixels(Pitch(a.width), PixelBufferSize(a.width, a.height)), a.copy),
      Step(CreateTexture2D(TextureDescFor(a.width, a.height), Pitch(a.width)), a.texture),
      Step(CreateView, a.view) ]
  }

  const STEP_COUNT: nat := 8

  function Calls(steps: seq<Step>): (r: seq<WicCall>)
    ensures |r| == |steps|
    ensures forall i :: 0 <= i < |steps| ==> r[i] == steps[i].call
  {
    seq(|steps|, i requires 0 <= i < |steps| => steps[i].call)
  }

  /** Reference: the position of the first failing step, if any. */
  function FirstFailure(steps: seq<Step>): (r: Option<nat>)
    ensures r.None? <==> forall i :: 0 <= i < |steps| ==> Succeeded(steps[i].hr)
    ensures r.Some? ==> r.value < |steps| && !Succeeded(steps[r.value].hr)
    ensures r.Some? ==> forall i :: 0 <= i < r.value ==> Succeeded(steps[i].hr)
  {
    if steps == [] then None
    else if !Succeeded(steps[0].hr) then Some(0)
    else match FirstFailure(steps[1..])
      case None => None
      case Some(k) => Some(k + 1)
  }

  /** Runs the steps in order, each followed by the `WIC_CHECK_SUCESS` test:
      the first failure ends the run with a null view, so the failing call is
      the last one made. */
  function RunSteps(steps: seq<Step>, srv: Srv): (r: WicRun)
    ensures FirstFailure(steps).None? ==> r == WicRun(Some(srv), Calls(steps))
    ensures FirstFailure(steps).Some? ==>
              r == WicRun(None, Calls(steps[..FirstFailure(steps).value + 1]))
  {
    if steps == [] then WicRun(Some(srv), [])
    else if !Succeeded(steps[0].hr) then WicRun(None, [steps[0].call])
    else
      var rest := RunSteps(steps[1..], srv);
      CallsCons(steps, FirstFailure(steps));
      WicRun(rest.view, [steps[0].call] + rest.calls)
  }

  /** How the calls of a run whose first step succeeds decompose. */
  lemma CallsCons(steps: seq<Step>, first: Option<nat>)
    requires steps != [] && Succeeded(steps[0].hr) && first == FirstFailure(steps)
    ensures first.None? ==> Calls(steps) == [steps[0].call] + Calls(steps[1..])
    ensures first.Some? ==> first.value >= 1 && FirstFailure(steps[1..]) == Some(first.value - 1)
    ensures first.Some? ==>
              Calls(steps[..first.value + 1]) == [steps[0].call] + Calls(steps[1..][..first.value])
  {
    if first.Some? {
      var k := first.value;
      assert steps[..k + 1] == [steps[0]] + steps[1..][..k];
    }
  }

  /** `LoadWIC` / `LoadTextureWIC`: a null device or file name yields null
      without any call; otherwise the steps run until the first failure. */
  function LoadWic(device: Device, filename: Option<string>, a: WicAnswers): (r: WicRun)
    ensures device.NullDevice? || filename.None? ==> r == WicRun(None, [])
    ensures device.Device? && filename.Some? ==>
              (r.view.Some? <==> forall i :: 0 <= i < STEP_COUNT ==> Succeeded(Plan(filename.value, a)[i].hr))
    ensures r.view.Some? ==> r.view.value == a.srv
  {
    if device.NullDevice? || filename.None? then WicRun(None, [])
    else RunSteps(Plan(filename.value, a), a.srv)
  }

  /** Early exit: the calls made are a prefix of the plan; a view is returned
      exactly when the whole plan ran and every step succeeded; otherwise the
      last call made is the one that failed, every earlier call succeeded and
      no later call was made. */
  lemma LoadWicEarlyExit(device: Device, filename: string, a: WicAnswers)
    requires device.Device?
    ensures var r := LoadWic(device, Some(filename), a);
            var plan := Plan(filename, a);
            && 1 <= |r.calls| <= STEP_COUNT
            && r.calls == Calls(plan[..|r.calls|])
            && (r.view.Some? <==> |r.calls| == STEP_COUNT && Succeeded(plan[STEP_COUNT - 1].hr))
            && (r.view.None? ==> !Succeeded(plan[|r.calls| - 1].hr))
            && (forall i :: 0 <= i < |r.calls| - 1 ==> Succeeded(plan[i].hr))
  {
    var plan := Plan(filename, a);
    assert plan[..STEP_COUNT] == plan;
    match FirstFailure(plan)
    case None =>
    case Some(k) =>
      assert plan[..k + 1][..k + 1] == plan[..k + 1];
  }

  /** Once the loader reaches the pixel copy, the buffer it passes holds
      `width * height * 4` bytes and the stride is `width * 4`, both reduced
      modulo 2^32 as `UINT` products are; when the products fit in 32 bits
      they are exact. */
  lemma PixelBufferArithmetic(device: Device, filename: string, a: WicAnswers)
    requires device.Device?
    ensures var r := LoadWic(device, Some(filename), a);
            |r.calls| > 5 ==> r.calls[5] == CopyPixels(Pitch(a.width), PixelBufferSize(a.width, a.height))
    ensures a.width * a.height * 4 < U32_LIMIT ==>
              PixelBufferSize(a.width, a.height) == a.width * a.height * 4
    ensures a.width * 4 < U32_LIMIT ==> Pitch(a.width) == a.width * 4
  {
    LoadWicEarlyExit(device, filename, a);
  }

  /** Once the loader creates the texture, the descriptor is the fixed one
      (1 mip, 1 slice, RGBA8, immutable, shader-resource bind) sized to the
      decoded image, and the upload pitch equals the copy stride. */
  lemma TextureDescriptorFixed(device: Device, filename: string, a: WicAnswers)
    requires device.Device?
    ensures var r := LoadWic(device, Some(filename), a);
            |r.calls| > 6 ==>
              && r.calls[6] == CreateTexture2D(TextureDescFor(a.width, a.height), Pitch(a.width))
              && r.calls[6].desc.mipLevels == 1 && r.calls[6].desc.arraySize == 1
              && r.calls[6].desc.format == R8G8B8A8Unorm
              && r.calls[6].desc.usage == UsageImmutable
              && r.calls[6].desc.bindFlags == BindShaderResource
              && r.calls[6].pitch == r.calls[5].stride
  {
    LoadWicEarlyExit(device, filename, a);
  }
}
