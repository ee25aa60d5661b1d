/** Texture resolution by file (src/texture.cpp): `Texture::Load`, which
    dispatches on the file extension between the DDS loader and the general
    image loader, and `Texture::LoadEmbeddedCompressed`, which decodes an
    encoded image held in memory. */
module Texture {

  import opened Basics
  import opened Log
  import opened Model
  import opened Foreign
  import opened Format
  import Wic

  /** A resolved texture (null on failure) and the effects after resolving it. */
  datatype Loaded = Loaded(view: Option<Srv>, effects: Effects)

  /** `std::tolower` in the "C" locale: only 'A'..'Z' change. */
  function ToLowerAscii(c: char): (r: char)
    ensures 'A' <= c <= 'Z' ==> r as int == c as int + 32
    ensures !('A' <= c <= 'Z') ==> r == c
  {
    if 'A' <= c <= 'Z' then (c as int + 32) as char else c
  }

  /** The extension lowered character by character, in place. */
  function Lowercase(s: string): (r: string)
    ensures |r| == |s|
    ensures forall i :: 0 <= i < |s| ==> r[i] == ToLowerAscii(s[i])
  {
    seq(|s|, i requires 0 <= i < |s| => ToLowerAscii(s[i]))
  }

  const DDS_EXTENSION: string := ".dds"

  predicate IsDdsExtension(ext: string) {
    Lowercase(ext) == DDS_EXTENSION
  }

  /** The extension test is case-insensitive and nothing more: an extension
      selects the DDS loader exactly when it is a dot followed by d, d, s in
      either case, so ".DDS" and ".Dds" qualify and no other string does. */
  lemma DdsExtensionCaseInsensitive(ext: string)
    ensures IsDdsExtension(ext) <==>
              && |ext| == 4 && ext[0] == '.'
              && (ext[1] == 'd' || ext[1] == 'D')
              && (ext[2] == 'd' || ext[2] == 'D')
              && (ext[3] == 's' || ext[3] == 'S')
  {
    if IsDdsExtension(ext) {
      var low := Lowercase(ext);
      assert |ext| == 4;
      assert low[0] == '.' && low[1] == 'd' && low[2] == 'd' && low[3] == 's';
    }
  }

  function DdsFailureMessage(filename: string, hr: HResult): string {
    "Failed to load DDS texture: " + filename + " | HRESULT: 0x" + Hex8(AsUnsigned(hr))
  }

  function EmbeddedFailureMessage(hr: HResult): string {
    "Failed to load embedded texture. HRESULT: 0x" + Hex8(AsUnsigned(hr))
  }

  /** The WIC loader's calls, as entries of the foreign-call list. */
  function WicCalls(run: Wic.WicRun): (r: seq<Call>)
    ensures |r| == |run.calls|
    ensures forall i :: 0 <= i < |r| ==> r[i] == WicFile(run.calls[i])
  {
    seq(|run.calls|, i requires 0 <= i < |run.calls| => WicFile(run.calls[i]))
  }

  /** `LoadWIC` on a file name, recording its calls. It never logs. */
  function LoadWicFile(p: Platform, device: Device, filename: string, e: Effects): (r: Loaded)
    ensures r.effects.log == e.log
    ensures r.view == Wic.LoadWic(device, Some(filename), p.wicFile(filename)).view
    ensures r.effects.calls == e.calls + WicCalls(Wic.LoadWic(device, Some(filename), p.wicFile(filename)))
  {
    var run := Wic.LoadWic(device, Some(filename), p.wicFile(filename));
    Loaded(run.view, Emit(e, WicCalls(run)))
  }

  /** The view `Texture::Load` resolves a file to: the DDS loader's view when
      the extension is `.dds` and that loader accepts the file, otherwise the
      general decoder's. */
  function ResolveView(p: Platform, device: Device, filename: string): Option<Srv> {
    if IsDdsExtension(p.extension(filename)) && p.ddsFromFile(filename).Created? then
      Some(p.ddsFromFile(filename).value)
    else
      Wic.LoadWic(device, Some(filename), p.wicFile(filename)).view
  }

  /** `Texture::Load`. */
  function Load(p: Platform, device: Device, filename: string, e: Effects): (r: Loaded)
    ensures r.view == ResolveView(p, device, filename)
    // not a .dds file: straight to the general decoder, nothing logged
    ensures !IsDdsExtension(p.extension(filename)) ==> r == LoadWicFile(p, device, filename, e)
    // a .dds file the DDS loader accepts: that view, no general decoding
    ensures IsDdsExtension(p.extension(filename)) && p.ddsFromFile(filename).Created? ==>
              r == Loaded(Some(p.ddsFromFile(filename).value), Emit(e, [DdsFromFile(filename)]))
    // a .dds file the DDS loader rejects: one log entry, then the general decoder
    ensures IsDdsExtension(p.extension(filename)) && p.ddsFromFile(filename).CallFailed? ==>
              var logged := Note(Emit(e, [DdsFromFile(filename)]),
                                 DdsFailureMessage(filename, p.ddsFromFile(filename).hr));
              && |logged.log.entries| == |e.log.entries| + 1
              && r == LoadWicFile(p, device, filename, logged)
  {
    if IsDdsExtension(p.extension(filename)) then
      var e1 := Emit(e, [DdsFromFile(filename)]);
      match p.ddsFromFile(filename)
      case Created(srv) => Loaded(Some(srv), e1)
      case CallFailed(hr) => LoadWicFile(p, device, filename, Note(e1, DdsFailureMessage(filename, hr)))
    else
      LoadWicFile(p, device, filename, e)
  }

  /** The view `Texture::LoadEmbeddedCompressed` resolves to. */
  function EmbeddedView(p: Platform, device: Device, data: seq<byte>, size: nat): Option<Srv> {
    if device.Device? && p.wicFromMemory(data, size).Created? then Some(p.wicFromMemory(data, size).value)
    else None
  }

  /** `Texture::LoadEmbeddedCompressed`: `size` is the byte count handed to
      the in-memory decoder. */
  function LoadEmbeddedCompressed(p: Platform, device: Device, data: seq<byte>, size: nat, e: Effects): (r: Loaded)
    ensures r.view == EmbeddedView(p, device, data, size)
    ensures device.NullDevice? ==> r == Loaded(None, e)
    ensures device.Device? ==> r.effects.calls == e.calls + [WicFromMemory(data, size)]
    ensures device.Device? && p.wicFromMemory(data, size).Created? ==>
              r.view == Some(p.wicFromMemory(data, size).value) && r.effects.log == e.log
    ensures device.Device? && p.wicFromMemory(data, size).CallFailed? ==>
              && r.view.None?
              && r.effects.log.entries
                 == e.log.entries + [LogEntry(EmbeddedFailureMessage(p.wicFromMemory(data, size).hr), Info)]
  {
    if device.NullDevice? then Loaded(None, e)
    else
      var e1 := Emit(e, [WicFromMemory(data, size)]);
      match p.wicFromMemory(data, size)
      case Created(srv) => Loaded(Some(srv), e1)
      case CallFailed(hr) => Loaded(None, Note(e1, EmbeddedFailureMessage(hr)))
  }

  /** The observable routes through `Texture::Load`: a DDS hit makes the one
      DDS call and nothing else; a DDS miss logs exactly one entry and then
      runs the general decoder; any other extension never touches the DDS
      loader and `Load` itself logs nothing. */
  lemma LoadRouting(p: Platform, device: Device, filename: string, e: Effects)
    ensures var r := Load(p, device, filename, e);
            var wic := WicCalls(Wic.LoadWic(device, Some(filename), p.wicFile(filename)));
            var wicView := Wic.LoadWic(device, Some(filename), p.wicFile(filename)).view;
            && (IsDdsExtension(p.extension(filename)) && p.ddsFromFile(filename).Created? ==>
                  && r.view.Some?
                  && r.effects.calls == e.calls + [DdsFromFile(filename)]
                  && r.effects.log == e.log)
            && (IsDdsExtension(p.extension(filename)) && p.ddsFromFile(filename).CallFailed? ==>
                  && r.view == wicView
                  && r.effects.calls == e.calls + [DdsFromFile(filename)] + wic
                  && |r.effects.log.entries| == |e.log.entries| + 1
                  && r.effects.log.entries[..|e.log.entries|] == e.log.entries)
            && (!IsDdsExtension(p.extension(filename)) ==>
                  && r.view == wicView
                  && r.effects.calls == e.calls + wic
                  && r.effects.log == e.log)
  {
  }

  /** Resolving a texture only appends: earlier log entries and calls stay,
      every added call is a texture call, and at most one entry is logged. */
  lemma LoadAppendsTextureCalls(p: Platform, device: Device, filename: string, e: Effects)
    ensures var r := Load(p, device, filename, e);
            && Extends(e, r.effects)
            && |r.effects.log.entries| <= |e.log.entries| + 1
            && forall i :: 0 <= i < |AddedCalls(e, r.effects)| ==> IsTextureCall(AddedCalls(e, r.effects)[i])
  {
    var r := Load(p, device, filename, e);
    assert r.effects.calls[..|e.calls|] == e.calls;
  }

  lemma LoadEmbeddedAppendsTextureCalls(p: Platform, device: Device, data: seq<byte>, size: nat, e: Effects)
    ensures var r := LoadEmbeddedCompressed(p, device, data, size, e);
            && Extends(e, r.effects)
            && |r.effects.log.entries| <= |e.log.entries| + 1
            && forall i :: 0 <= i < |AddedCalls(e, r.effects)| ==> IsTextureCall(AddedCalls(e, r.effects)[i])
  {
    var r := LoadEmbeddedCompressed(p, device, data, size, e);
    assert r.effects.calls[..|e.calls|] == e.calls;
  }
}
