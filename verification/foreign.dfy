/** Everything the core calls but does not implement. The scene importer,
    `std::filesystem` path parsing and the DDS and WIC texture loaders are
    uninterpreted total functions held in a `Platform` record. The device's
    buffer creation has no field: it is assumed to succeed and is only
    recorded. The core's observable effects are the log and the importer,
    texture-loader and buffer-creation calls it makes, threaded through
    every operation as an explicit `Effects` value; path queries are not
    recorded. */
module Foreign {

  import opened Basics
  import opened Log
  import opened Model
  import opened Scene
  import Wic

  /** Post-processing requested from the scene importer. */
  datatype PostProcess = Triangulate | CalcTangentSpace | JoinIdenticalVertices

  /** The fixed post-processing policy of every import. */
  const IMPORT_FLAGS: set<PostProcess> := {Triangulate, CalcTangentSpace, JoinIdenticalVertices}

  /** One call into a foreign component. */
  datatype Call =
    | ReadFile(path: string, flags: set<PostProcess>)
    | DdsFromFile(filename: string)
    | WicFromMemory(data: seq<byte>, size: nat)
    | WicFile(step: Wic.WicCall)
    | CreateBuffer(buffer: GpuBuffer)

  /** Calls made while resolving a texture. */
  predicate IsTextureCall(c: Call) {
    c.DdsFromFile? || c.WicFromMemory? || c.WicFile?
  }

  /** The foreign components, as the answers they give. */
  datatype Platform = Platform(
    readFile: string -> ImportResult,
    parentPath: string -> string,
    fileName: string -> string,
    extension: string -> string,
    joinPath: (string, string) -> string,
    ddsFromFile: string -> Created<Srv>,
    wicFromMemory: (seq<byte>, nat) -> Created<Srv>,
    wicFile: string -> Wic.WicAnswers)

  /** The log and the calls made so far. */
  datatype Effects = Effects(log: Logger, calls: seq<Call>)

  const NO_EFFECTS: Effects := Effects(Logger([]), [])

  function Emit(e: Effects, calls: seq<Call>): (r: Effects)
    ensures r.log == e.log
    ensures r.calls == e.calls + calls
  {
    Effects(e.log, e.calls + calls)
  }

  function Note(e: Effects, message: string): (r: Effects)
    ensures r.calls == e.calls
    ensures r.log.entries == e.log.entries + [LogEntry(message, Info)]
  {
    Effects(LogInfo(e.log, message), e.calls)
  }

  /** `e2` is `e1` with entries and calls appended, nothing rewritten. */
  predicate Extends(e1: Effects, e2: Effects) {
    && |e1.log.entries| <= |e2.log.entries|
    && e2.log.entries[..|e1.log.entries|] == e1.log.entries
    && |e1.calls| <= |e2.calls|
    && e2.calls[..|e1.calls|] == e1.calls
  }

  /** The calls `e2` added to `e1`. */
  function AddedCalls(e1: Effects, e2: Effects): seq<Call>
    requires Extends(e1, e2)
  {
    e2.calls[|e1.calls|..]
  }

  /** The log entries `e2` added to `e1`. */
  function AddedEntries(e1: Effects, e2: Effects): seq<LogEntry>
    requires Extends(e1, e2)
  {
    e2.log.entries[|e1.log.entries|..]
  }

  lemma ExtendsTransitive(e1: Effects, e2: Effects, e3: Effects)
    requires Extends(e1, e2) && Extends(e2, e3)
    ensures Extends(e1, e3)
    ensures AddedCalls(e1, e3) == AddedCalls(e1, e2) + AddedCalls(e2, e3)
    ensures AddedEntries(e1, e3) == AddedEntries(e1, e2) + AddedEntries(e2, e3)
  {
    assert e3.calls[..|e1.calls|] == e3.calls[..|e2.calls|][..|e1.calls|];
    assert e3.log.entries[..|e1.log.entries|] == e3.log.entries[..|e2.log.entries|][..|e1.log.entries|];
    assert e3.calls[|e1.calls|..] == e3.calls[|e1.calls|..|e2.calls|] + e3.calls[|e2.calls|..];
    assert e3.log.entries[|e1.log.entries|..]
        == e3.log.entries[|e1.log.entries|..|e2.log.entries|] + e3.log.entries[|e2.log.entries|..];
  }

  /** `e2` is `e1` with texture calls appended and nothing else called. */
  predicate TextureCallsOnly(e1: Effects, e2: Effects) {
    && Extends(e1, e2)
    && forall i :: 0 <= i < |AddedCalls(e1, e2)| ==> IsTextureCall(AddedCalls(e1, e2)[i])
  }

  lemma TextureCallsOnlyTransitive(e1: Effects, e2: Effects, e3: Effects)
    requires TextureCallsOnly(e1, e2) && TextureCallsOnly(e2, e3)
    ensures TextureCallsOnly(e1, e3)
  {
    ExtendsTransitive(e1, e2, e3);
  }
}
