/** The editor's frame loop (src/editor.cpp, src/main.cpp): the command
    queue the UI fills, `ProcessUICommands`, which drains it, `Update`, and
    the paint order update-then-render. Camera input and matrices are left
    out; the file dialog is the optional path it returns in a frame. */
module Editor {

  import opened Basics
  import opened Model
  import opened Scene
  import opened Foreign
  import opened AssetLoader
  import opened Render

  /** `EditorCommand`, assumed here to hold only `LoadModelCommand`: the
      variant is declared in actions.h, which is not part of this model. */
  datatype Command = LoadModelCommand(path: string)

  /** The editor state the core touches: the loaded models, the UI command
      queue and the effects so far. */
  datatype EditorState = EditorState(models: seq<Model>, queue: seq<Command>, effects: Effects)

  /** The paths of the queued commands, in queue order. */
  function Paths(queue: seq<Command>): (r: seq<string>)
    ensures |r| == |queue|
    ensures forall i :: 0 <= i < |queue| ==> r[i] == queue[i].path
  {
    seq(|queue|, i requires 0 <= i < |queue| => queue[i].path)
  }

  /** The paths handed to the importer, in call order. */
  function ImportPaths(calls: seq<Call>): seq<string> {
    if calls == [] then []
    else (if calls[0].ReadFile? then [calls[0].path] else []) + ImportPaths(calls[1..])
  }

  lemma {:induction false} ImportPathsAppend(a: seq<Call>, b: seq<Call>)
    ensures ImportPaths(a + b) == ImportPaths(a) + ImportPaths(b)
  {
    if a == [] {
      assert a + b == b;
    } else {
      assert (a + b)[0] == a[0];
      assert (a + b)[1..] == a[1..] + b;
      ImportPathsAppend(a[1..], b);
    }
  }

  lemma {:induction false} ImportPathsNone(calls: seq<Call>)
    requires forall i :: 0 <= i < |calls| ==> !calls[i].ReadFile?
    ensures ImportPaths(calls) == []
  {
    if calls != [] {
      ImportPathsNone(calls[1..]);
    }
  }

  /** `AssetLoader::LoadModel` as the editor calls it, device fixed: the
      load of a path after the effects so far. The queue logic below is
      stated for any loader with the properties `LoadsLawfully` lists, and
      `LoaderOf` is `LoadModel` itself, shown to have them. */
  type LoadFn = (string, Effects) --> ModelLoad

  /** What the editor relies on from a load of `path`: it can be called
      after any effects, only appends to them, calls the importer exactly
      once and for `path`, and yields the same model whatever came before. */
  ghost predicate LoadsLawfully(load: LoadFn, path: string) {
    && load.requires(path, NO_EFFECTS)
    && forall e :: && load.requires(path, e)
                   && Extends(e, load(path, e).effects)
                   && ImportPaths(AddedCalls(e, load(path, e).effects)) == [path]
                   && load(path, e).model == load(path, NO_EFFECTS).model
  }

  ghost predicate QueueLawful(load: LoadFn, queue: seq<Command>) {
    forall i :: 0 <= i < |queue| ==> LoadsLawfully(load, queue[i].path)
  }

  /** The model a path loads to, if any. */
  function Outcome(load: LoadFn, path: string): Option<Model>
    requires LoadsLawfully(load, path)
  {
    load(path, NO_EFFECTS).model
  }

  /** What each queued command loads, in queue order. */
  function Outcomes(load: LoadFn, queue: seq<Command>): (r: seq<Option<Model>>)
    requires QueueLawful(load, queue)
    ensures |r| == |queue|
    ensures forall i :: 0 <= i < |queue| ==> r[i] == Outcome(load, queue[i].path)
  {
    seq(|queue|, i requires 0 <= i < |queue| => Outcome(load, queue[i].path))
  }

  /** One `LoadModelCommand`: on success the model list becomes exactly the
      new model (clear, then push); on failure it is left alone. */
  function Apply(load: LoadFn, models: seq<Model>, c: Command, e: Effects): (r: (seq<Model>, Effects))
    requires LoadsLawfully(load, c.path)
    ensures Outcome(load, c.path).Some? ==> r.0 == [Outcome(load, c.path).value]
    ensures Outcome(load, c.path).None? ==> r.0 == models
    ensures Extends(e, r.1)
    ensures ImportPaths(AddedCalls(e, r.1)) == [c.path]
  {
    var loaded := load(c.path, e);
    if loaded.model.Some? then ([loaded.model.value], loaded.effects) else (models, loaded.effects)
  }

  /** Reference semantics of the model list: replaying load outcomes in
      order, a loaded model replaces the whole list and a failed load leaves
      it as it was. */
  function Replay(models: seq<Model>, outcomes: seq<Option<Model>>): (r: seq<Model>)
    ensures r == models || (|r| == 1 && exists j :: 0 <= j < |outcomes| && outcomes[j] == Some(r[0]))
    decreases |outcomes|
  {
    if outcomes == [] then models
    else
      var r := Replay(if outcomes[0].Some? then [outcomes[0].value] else models, outcomes[1..]);
      assert forall j :: 0 <= j < |outcomes[1..]| ==> outcomes[1..][j] == outcomes[j + 1];
      r
  }

  /** Whether outcome `j` is the last successful one. */
  predicate IsLastSuccess(outcomes: seq<Option<Model>>, j: nat) {
    && j < |outcomes|
    && outcomes[j].Some?
    && forall k :: j < k < |outcomes| ==> outcomes[k].None?
  }

  /** The index of the last success at or after `j`. */
  function LastSome(outcomes: seq<Option<Model>>, j: nat): (r: nat)
    requires j < |outcomes| && outcomes[j].Some?
    ensures IsLastSuccess(outcomes, r) && j <= r
    decreases |outcomes| - j
  {
    if exists k :: j < k < |outcomes| && outcomes[k].Some? then
      var k :| j < k < |outcomes| && outcomes[k].Some?;
      LastSome(outcomes, k)
    else j
  }

  /** The last successful load wins: replaying ends with exactly the model
      of the last success, earlier successes discarded; with no success the
      list is untouched. */
  lemma {:induction false} ReplayKeepsLastSuccess(models: seq<Model>, outcomes: seq<Option<Model>>)
    ensures (forall j :: 0 <= j < |outcomes| ==> outcomes[j].None?) ==> Replay(models, outcomes) == models
    ensures forall j :: 0 <= j < |outcomes| && IsLastSuccess(outcomes, j) ==>
              Replay(models, outcomes) == [outcomes[j].value]
    decreases |outcomes|
  {
    if outcomes != [] {
      var m1 := if outcomes[0].Some? then [outcomes[0].value] else models;
      var rest := outcomes[1..];
      ReplayKeepsLastSuccess(m1, rest);
      forall j | 0 <= j < |outcomes| && IsLastSuccess(outcomes, j)
        ensures Replay(models, outcomes) == [outcomes[j].value]
      {
        if j > 0 {
          assert IsLastSuccess(rest, j - 1);
        } else {
          assert forall k :: 0 <= k < |rest| ==> rest[k].None? by {
            forall k | 0 <= k < |rest|
              ensures rest[k].None?
            {
              assert rest[k] == outcomes[k + 1];
            }
          }
        }
      }
      if forall j :: 0 <= j < |outcomes| ==> outcomes[j].None? {
        assert outcomes[0].None?;
        assert forall k :: 0 <= k < |rest| ==> rest[k].None? by {
          forall k | 0 <= k < |rest|
            ensures rest[k].None?
          {
            assert rest[k] == outcomes[k + 1];
          }
        }
      }
    }
  }

  /** Replaying drawable outcomes onto drawable models keeps them drawable. */
  lemma {:induction false} ReplayKeepsDrawable(models: seq<Model>, outcomes: seq<Option<Model>>)
    requires AllDrawable(models)
    requires forall j :: 0 <= j < |outcomes| && outcomes[j].Some? ==> Drawable(outcomes[j].value)
    ensures AllDrawable(Replay(models, outcomes))
    decreases |outcomes|
  {
    if outcomes != [] {
      var m1 := if outcomes[0].Some? then [outcomes[0].value] else models;
      assert forall j :: 0 <= j < |outcomes[1..]| ==> outcomes[1..][j] == outcomes[j + 1];
      ReplayKeepsDrawable(m1, outcomes[1..]);
    }
  }

  lemma ImportsCompose(e1: Effects, e2: Effects, e3: Effects, path: string, later: seq<string>)
    requires Extends(e1, e2) && Extends(e2, e3)
    requires ImportPaths(AddedCalls(e1, e2)) == [path]
    requires ImportPaths(AddedCalls(e2, e3)) == later
    ensures Extends(e1, e3)
    ensures ImportPaths(AddedCalls(e1, e3)) == [path] + later
  {
    ExtendsTransitive(e1, e2, e3);
    ImportPathsAppend(AddedCalls(e1, e2), AddedCalls(e2, e3));
  }

  /** The loop of `ProcessUICommands`, front to back: the model list ends as
      the replay of the commands' outcomes, and every queued command reaches
      the importer exactly once, in queue order, including those whose result
      a later command discards. */
  function Drain(load: LoadFn, models: seq<Model>, queue: seq<Command>, e: Effects): (r: (seq<Model>, Effects))
    requires QueueLawful(load, queue)
    ensures r.0 == Replay(models, Outcomes(load, queue))
    ensures Extends(e, r.1)
    ensures ImportPaths(AddedCalls(e, r.1)) == Paths(queue)
    decreases |queue|
  {
    if queue == [] then
      assert AddedCalls(e, e) == [];
      (models, e)
    else
      var step := Apply(load, models, queue[0], e);
      var r := Drain(load, step.0, queue[1..], step.1);
      ImportsCompose(e, step.1, r.1, queue[0].path, Paths(queue[1..]));
      assert Paths(queue) == [queue[0].path] + Paths(queue[1..]);
      assert Outcomes(load, queue)[1..] == Outcomes(load, queue[1..]);
      r
  }

  /** `AssetLoader::LoadModel` on the editor's device. */
  function LoaderOf(p: Platform, device: Device): LoadFn {
    (path: string, e: Effects) requires ImportReadable(p.readFile(path)) && device.Device? =>
      LoadModel(p, device, path, e)
  }

  /** One import per load, whatever happens after it: the calls a
      `LoadModel` adds name exactly one importer path, its own. */
  lemma LoadModelImportsOnce(p: Platform, device: Device, path: string, e: Effects)
    requires ImportReadable(p.readFile(path))
    requires device.Device?
    ensures var r := LoadModel(p, device, path, e);
            ImportPaths(AddedCalls(e, r.effects)) == [path]
  {
    var added := AddedCalls(e, LoadModel(p, device, path, e).effects);
    assert added == [added[0]] + added[1..];
    assert ImportPaths([added[0]]) == [path] by {
      assert [added[0]][1..] == [];
    }
    ImportPathsNone(added[1..]);
    ImportPathsAppend([added[0]], added[1..]);
  }

  /** `LoadModel` has every property the queue logic relies on, and what a
      path loads to is the reference model of the asset loader. */
  lemma LoaderLawful(p: Platform, device: Device, path: string)
    requires ImportReadable(p.readFile(path))
    requires device.Device?
    ensures LoadsLawfully(LoaderOf(p, device), path)
    ensures Outcome(LoaderOf(p, device), path) == ModelOf(p, device, path)
  {
    var load := LoaderOf(p, device);
    forall e
      ensures && load.requires(path, e)
              && Extends(e, load(path, e).effects)
              && ImportPaths(AddedCalls(e, load(path, e).effects)) == [path]
              && load(path, e).model == ModelOf(p, device, path)
    {
      LoadModelImportsOnce(p, device, path, e);
    }
  }

  /** Every queued path decodes to something the loader can read. */
  predicate QueueReadable(p: Platform, queue: seq<Command>) {
    forall i :: 0 <= i < |queue| ==> ImportReadable(p.readFile(queue[i].path))
  }

  /** What the queued commands load to, by the asset loader's reference. */
  function ReferenceOutcomes(p: Platform, device: Device, queue: seq<Command>): (r: seq<Option<Model>>)
    requires QueueReadable(p, queue)
    requires device.Device?
    ensures |r| == |queue|
  {
    seq(|queue|, i requires 0 <= i < |queue| => ModelOf(p, device, queue[i].path))
  }

  lemma QueueLawfulOf(p: Platform, device: Device, queue: seq<Command>)
    requires QueueReadable(p, queue)
    requires device.Device?
    ensures QueueLawful(LoaderOf(p, device), queue)
    ensures Outcomes(LoaderOf(p, device), queue) == ReferenceOutcomes(p, device, queue)
  {
    forall i | 0 <= i < |queue|
      ensures LoadsLawfully(LoaderOf(p, device), queue[i].path)
      ensures Outcome(LoaderOf(p, device), queue[i].path) == ModelOf(p, device, queue[i].path)
    {
      LoaderLawful(p, device, queue[i].path);
    }
  }

  /** `ProcessUICommands`: load every queued path in order, then clear the
      queue. The models end as the replay of the reference outcomes, the
      importer sees exactly the queued paths in queue order, and effects are
      only appended. */
  function ProcessUICommands(p: Platform, device: Device, s: EditorState): (r: EditorState)
    requires QueueReadable(p, s.queue)
    requires device.Device?
    ensures r.queue == []
    ensures r.models == Replay(s.models, ReferenceOutcomes(p, device, s.queue))
    ensures r.models == s.models || |r.models| == 1
    ensures Extends(s.effects, r.effects)
    ensures ImportPaths(AddedCalls(s.effects, r.effects)) == Paths(s.queue)
  {
    QueueLawfulOf(p, device, s.queue);
    var (models, e) := Drain(LoaderOf(p, device), s.models, s.queue, s.effects);
    EditorState(models, [], e)
  }

  /** After the queue is processed the editor holds exactly the model of the
      last command that loads; if none loads, the models are untouched; either
      way the queue is empty afterwards. */
  lemma ProcessKeepsLastSuccess(p: Platform, device: Device, s: EditorState)
    requires QueueReadable(p, s.queue)
    requires device.Device?
    ensures var r := ProcessUICommands(p, device, s);
            var outcomes := ReferenceOutcomes(p, device, s.queue);
            && ((forall j :: 0 <= j < |s.queue| ==> outcomes[j].None?) ==> r.models == s.models)
            && (forall j :: 0 <= j < |s.queue| && IsLastSuccess(outcomes, j) ==>
                  r.models == [ModelOf(p, device, s.queue[j].path).value])
            && ((exists j :: 0 <= j < |s.queue| && outcomes[j].Some?) ==>
                  exists j :: 0 <= j < |s.queue| && IsLastSuccess(outcomes, j))
  {
    var outcomes := ReferenceOutcomes(p, device, s.queue);
    if exists j :: 0 <= j < |s.queue| && outcomes[j].Some? {
      var j :| 0 <= j < |s.queue| && outcomes[j].Some?;
      assert IsLastSuccess(outcomes, LastSome(outcomes, j));
    }
    ReplayKeepsLastSuccess(s.models, ReferenceOutcomes(p, device, s.queue));
  }

  /** The command the file dialog adds in a frame: one load of the chosen
      path, if any. */
  function Chosen(chosen: Option<string>): (r: seq<Command>)
    ensures chosen.None? ==> r == []
    ensures chosen.Some? ==> r == [LoadModelCommand(chosen.value)]
  {
    match chosen
    case None => []
    case Some(path) => [LoadModelCommand(path)]
  }

  /** `EditorMain::Update`: when the file dialog closes with a path, a load
      command for it is queued; otherwise the queue is unchanged. */
  function GuiUpdate(s: EditorState, chosen: Option<string>): (r: EditorState)
    ensures r.models == s.models && r.effects == s.effects
    ensures chosen.None? ==> r.queue == s.queue
    ensures chosen.Some? ==> r.queue == s.queue + [LoadModelCommand(chosen.value)]
    ensures r.queue == s.queue + Chosen(chosen)
  {
    match chosen
    case None => s
    case Some(path) => s.(queue := s.queue + [LoadModelCommand(path)])
  }

  /** `Editor::Update` without the camera: the UI runs before the drain, so
      the commands pending from earlier and then a path chosen this frame are
      all loaded in this same update, in that order, and the queue ends
      empty. */
  function Update(p: Platform, device: Device, s: EditorState, chosen: Option<string>): (r: EditorState)
    requires QueueReadable(p, s.queue + Chosen(chosen))
    requires device.Device?
    ensures r.queue == []
    ensures r.models == Replay(s.models, ReferenceOutcomes(p, device, s.queue + Chosen(chosen)))
    ensures Extends(s.effects, r.effects)
    ensures ImportPaths(AddedCalls(s.effects, r.effects)) == Paths(s.queue) + Paths(Chosen(chosen))
  {
    var g := GuiUpdate(s, chosen);
    assert Paths(g.queue) == Paths(s.queue) + Paths(Chosen(chosen));
    ProcessUICommands(p, device, g)
  }

  /** A path chosen in the dialog with nothing else pending replaces the
      models with that file's model when it loads, and leaves them alone when
      it does not; either way the queue ends empty and the importer was asked
      for exactly that path. */
  lemma UpdateLoadsChosenPath(p: Platform, device: Device, s: EditorState, path: string)
    requires s.queue == []
    requires ImportReadable(p.readFile(path))
    requires device.Device?
    ensures var r := Update(p, device, s, Some(path));
            && r.queue == []
            && (ModelOf(p, device, path).Some? ==> r.models == [ModelOf(p, device, path).value])
            && (ModelOf(p, device, path).None? ==> r.models == s.models)
            && ImportPaths(AddedCalls(s.effects, r.effects)) == [path]
  {
    var q := [LoadModelCommand(path)];
    assert s.queue + Chosen(Some(path)) == q;
    var outcomes := ReferenceOutcomes(p, device, q);
    assert outcomes == [ModelOf(p, device, path)];
    ReplayKeepsLastSuccess(s.models, outcomes);
    if ModelOf(p, device, path).Some? {
      assert IsLastSuccess(outcomes, 0);
    }
    assert Paths(s.queue) + Paths(Chosen(Some(path))) == [path];
  }

  /** Every scene behind a queued path names existing materials. */
  predicate QueueDrawable(p: Platform, queue: seq<Command>)
    requires QueueReadable(p, queue)
  {
    forall i :: 0 <= i < |queue| && ImportSucceeds(p, queue[i].path) ==>
      MaterialIndicesInRange(p.readFile(queue[i].path).scene.value)
  }

  /** A loaded model's meshes address its own materials whenever its scene's
      meshes did. */
  lemma LoadedDrawable(p: Platform, device: Device, path: string)
    requires ImportReadable(p.readFile(path))
    requires device.Device?
    requires ImportSucceeds(p, path) ==> MaterialIndicesInRange(p.readFile(path).scene.value)
    ensures ModelOf(p, device, path).Some? ==> Drawable(ModelOf(p, device, path).value)
  {
    if ImportSucceeds(p, path) {
      LoadedModelConsistent(p, device, path);
    }
  }

  /** Processing the queue keeps every held model drawable. */
  lemma ProcessKeepsDrawable(p: Platform, device: Device, s: EditorState)
    requires QueueReadable(p, s.queue) && QueueDrawable(p, s.queue)
    requires device.Device?
    requires AllDrawable(s.models)
    ensures AllDrawable(ProcessUICommands(p, device, s).models)
  {
    var outcomes := ReferenceOutcomes(p, device, s.queue);
    forall j | 0 <= j < |outcomes| && outcomes[j].Some?
      ensures Drawable(outcomes[j].value)
    {
      LoadedDrawable(p, device, s.queue[j].path);
    }
    ReplayKeepsDrawable(s.models, outcomes);
  }

  /** One `WM_PAINT`: update, then render the models the update left. */
  function Frame(p: Platform, device: Device, s: EditorState, chosen: Option<string>): (r: (EditorState, seq<ContextCall>))
    requires QueueReadable(p, s.queue + Chosen(chosen)) && QueueDrawable(p, s.queue + Chosen(chosen))
    requires device.Device?
    requires AllDrawable(s.models)
    ensures r.0 == Update(p, device, s, chosen)
    ensures AllDrawable(r.0.models)
    ensures r.1 == RenderFrame(r.0.models)
  {
    var s1 := Update(p, device, s, chosen);
    ProcessKeepsDrawable(p, device, GuiUpdate(s, chosen));
    assert s1 == ProcessUICommands(p, device, GuiUpdate(s, chosen));
    (s1, RenderFrame(s1.models))
  }

  /** Any sequence of updates from a state with at most one model (start-up
      has none) keeps the editor showing at most one model, with a drained
      queue. */
  function Run(p: Platform, device: Device, s: EditorState, choices: seq<Option<string>>): (r: EditorState)
    requires forall i :: 0 <= i < |choices| && choices[i].Some? ==> ImportReadable(p.readFile(choices[i].value))
    requires device.Device?
    requires s.queue == []
    ensures r.queue == []
    ensures |s.models| <= 1 ==> |r.models| <= 1
    decreases |choices|
  {
    if choices == [] then s
    else
      var s1 := Update(p, device, s, choices[0]);
      Run(p, device, s1, choices[1..])
  }
}
