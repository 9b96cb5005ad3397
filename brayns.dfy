/** Brayns::Impl, the orchestrator: it owns the parameters, asks the engine
    factory for the engine the parameters name, loads the data into its
    scene, builds the scene, drives the two per-frame pipelines and applies
    the keyboard shortcuts. */
module Brayns {
  import opened Wrappers
  import opened Geometry
  import opened Params
  import opened Loaders
  import opened Engines
  import opened DataLoading
  import opened LoadingProperties
  import opened Frames
  import opened Shortcuts

  /** The camera manipulator: its mode and the engine whose camera it drives. */
  datatype CameraManipulator = CameraManipulator(mode: CameraMode, engineId: nat)

  /** The engine factory's bookkeeping: the next handle it gives out, the
      engines it holds, and the handles removed from it, in order. */
  datatype FactoryState = FactoryState(nextId: nat, live: set<nat>, removed: seq<nat>)

  /** What the extension plugins do during a frame: they may rewrite the
      parameters and may call the engine's recreate callback. */
  datatype ExtensionEffect = ExtensionEffect(params: Parameters, recreate: bool)

  /** The engine the factory hands out for a supported name. */
  function FreshEngine(id: nat, name: string, env: Environment): Engine {
    Engine(id, name,
      Scene([], env.initialMaterials, "", env.volume, None, EmptyBox, 0),
      env.initialCamera, Size(0, 0), [])
  }

  /** buildScene after _loadData: volume and simulation data are committed
      and the geometry built. */
  const SceneHead: seq<Event> := [CommitVolumeData, CommitSimulationData, BuildEnvironment, BuildGeometry]

  /** A scene with no geometry and no volume gets the default scene. */
  function DefaultSceneFallback(e: Engine): seq<Event> {
    if Empty(e.scene) && e.scene.volume.None? then [BuildDefault, BuildGeometry] else []
  }

  /** The end of buildScene: the scene is committed, the manipulator reset to
      inspect mode, the camera fitted to the world bounds, the epsilon set
      and the engine committed. */
  function SceneFinish(e: Engine, env: Environment): seq<Event> {
    [SceneCommit, ManipulatorBound(Inspect), SetDefaultCamera(env.defaultCamera(e.scene.bounds)),
     SetDefaultEpsilon, Commit]
  }

  /** The engine after _loadData. */
  function Loaded(e: Engine, p: Parameters, env: Environment): (r: Engine)
    ensures r.scene.lights == e.scene.lights
    ensures r.trace == e.trace + LoadEvents(p, env, |e.scene.materials|, e.scene.volume)
  {
    LoadingKeepsLights(p, env, |e.scene.materials|, e.scene.volume);
    RunKeepsLights(e, LoadEvents(p, env, |e.scene.materials|, e.scene.volume));
    Run(e, LoadEvents(p, env, |e.scene.materials|, e.scene.volume))
  }

  /** The rest of buildScene, from the loaded engine l. */
  function AfterLoad(l: Engine, env: Environment): Engine {
    var b := Run(l, SceneHead);
    var f := Run(b, DefaultSceneFallback(b));
    Run(f, SceneFinish(f, env))
  }

  /** Everything buildScene issues on engine e, in order. */
  function BuildSceneCalls(e: Engine, p: Parameters, env: Environment): seq<Event> {
    var b := Run(Loaded(e, p, env), SceneHead);
    var fb := DefaultSceneFallback(b);
    LoadEvents(p, env, |e.scene.materials|, e.scene.volume) + SceneHead + fb + SceneFinish(Run(b, fb), env)
  }

  /** The engine after buildScene. */
  function BuildSceneResult(e: Engine, p: Parameters, env: Environment): Engine {
    AfterLoad(Loaded(e, p, env), env)
  }

  /** A fresh engine with the default sun light added. */
  function SunLit(id: nat, name: string, env: Environment): (e: Engine)
    ensures e.id == id && e.name == name && e.scene.lights == [SunLight(env)]
    ensures e.trace == [AddLight(SunLight(env))]
    ensures e.scene.materials == env.initialMaterials && e.scene.volume == env.volume
  {
    Step(FreshEngine(id, name, env), AddLight(SunLight(env)))
  }

  /** The engine createEngine installs under handle id. */
  function CreatedEngine(id: nat, p: Parameters, env: Environment): Engine {
    Step(BuildSceneResult(SunLit(id, p.rendering.engine, env), p, env), InstallRecreate)
  }

  /** The default scene is built exactly when the built scene is empty and
      has no volume; afterwards the scene is not empty or has a volume. */
  lemma FallbackMakesSceneNonEmpty(b: Engine)
    ensures BuildDefault in DefaultSceneFallback(b) <==> Empty(b.scene) && b.scene.volume.None?
    ensures var f := Run(b, DefaultSceneFallback(b)); !Empty(f.scene) || f.scene.volume.Some?
  {
    if Empty(b.scene) && b.scene.volume.None? {
      RunSnoc(b, [], BuildDefault);
      RunSnoc(b, [BuildDefault], BuildGeometry);
      assert [BuildDefault] + [BuildGeometry] == DefaultSceneFallback(b);
    }
  }

  lemma AfterLoadTrace(l: Engine, env: Environment)
    ensures var b := Run(l, SceneHead); var f := Run(b, DefaultSceneFallback(b)); var r := AfterLoad(l, env);
      r.trace == l.trace + SceneHead + DefaultSceneFallback(b) + SceneFinish(f, env)
  {
  }

  lemma AfterLoadKeepsLights(l: Engine, env: Environment)
    ensures AfterLoad(l, env).scene.lights == l.scene.lights
  {
    var b := Run(l, SceneHead);
    var f := Run(b, DefaultSceneFallback(b));
    RunKeepsLights(l, SceneHead);
    RunKeepsLights(b, DefaultSceneFallback(b));
    RunKeepsLights(f, SceneFinish(f, env));
  }

  lemma AfterLoadNonEmpty(l: Engine, env: Environment)
    ensures var r := AfterLoad(l, env); !Empty(r.scene) || r.scene.volume.Some?
  {
    FallbackMakesSceneNonEmpty(Run(l, SceneHead));
  }

  /** The steps after loading, in order, with the default-scene rule; no
      light is touched. */
  lemma AfterLoadSteps(l: Engine, env: Environment)
    ensures var b := Run(l, SceneHead); var fb := DefaultSceneFallback(b);
      var fin := SceneFinish(Run(b, fb), env); var r := AfterLoad(l, env);
      && r.trace == l.trace + SceneHead + fb + fin
      && (BuildDefault in SceneHead + fb + fin <==> Empty(b.scene) && b.scene.volume.None?)
      && (!Empty(r.scene) || r.scene.volume.Some?)
      && r.scene.lights == l.scene.lights
  {
    var b := Run(l, SceneHead);
    AfterLoadTrace(l, env);
    AfterLoadKeepsLights(l, env);
    AfterLoadNonEmpty(l, env);
    FallbackMakesSceneNonEmpty(b);
  }

  lemma AfterLoadIgnoresIdentity(l: Engine, env: Environment, id: nat)
    ensures AfterLoad(l.(id := id), env) == AfterLoad(l, env).(id := id)
  {
    RunIgnoresIdentity(l, SceneHead, id);
    var b := Run(l, SceneHead);
    RunIgnoresIdentity(b, DefaultSceneFallback(b), id);
    var f := Run(b, DefaultSceneFallback(b));
    RunIgnoresIdentity(f, SceneFinish(f, env), id);
  }

  lemma BuildSceneTrace(e: Engine, p: Parameters, env: Environment)
    ensures BuildSceneResult(e, p, env).trace == e.trace + BuildSceneCalls(e, p, env)
  {
    var l := Loaded(e, p, env);
    AfterLoadSteps(l, env);
    var b := Run(l, SceneHead);
    var fb := DefaultSceneFallback(b);
    var tail := SceneHead + fb + SceneFinish(Run(b, fb), env);
    var loads := LoadEvents(p, env, |e.scene.materials|, e.scene.volume);
    Regroup(e.trace, loads, SceneHead, fb, SceneFinish(Run(b, fb), env));
  }

  lemma Regroup(a: seq<Event>, b: seq<Event>, c: seq<Event>, d: seq<Event>, f: seq<Event>)
    ensures a + b + c + d + f == a + (b + c + d + f)
  {
  }

  lemma LoadingBuildsNoDefault(e: Engine, p: Parameters, env: Environment)
    ensures var loads := LoadEvents(p, env, |e.scene.materials|, e.scene.volume);
      BuildDefault !in loads && InstallRecreate !in loads && forall l :: AddLight(l) !in loads
  {
    LoadersRunOnlyWhenGiven(p, env, |e.scene.materials|, e.scene.volume);
  }

  lemma BuildSceneState(e: Engine, p: Parameters, env: Environment)
    ensures var r := BuildSceneResult(e, p, env);
      && (!Empty(r.scene) || r.scene.volume.Some?)
      && r.scene.lights == e.scene.lights
  {
    AfterLoadSteps(Loaded(e, p, env), env);
  }

  /** The calls buildScene issues, in order: the loaders, the commits and
      the geometry build, the default scene exactly when the built scene is
      empty and has no volume, then the scene commit, the manipulator reset,
      the default camera and epsilon and the engine commit. Afterwards the
      scene is not empty or has a volume, and no light was touched. */
  lemma BuildSceneOrder(e: Engine, p: Parameters, env: Environment)
    ensures var loads := LoadEvents(p, env, |e.scene.materials|, e.scene.volume);
      var b := Run(Loaded(e, p, env), SceneHead); var fb := DefaultSceneFallback(b);
      var fin := SceneFinish(Run(b, fb), env); var r := BuildSceneResult(e, p, env);
      && r.trace == e.trace + loads + SceneHead + fb + fin
      && (BuildDefault in BuildSceneCalls(e, p, env) <==> Empty(b.scene) && b.scene.volume.None?)
      && (!Empty(r.scene) || r.scene.volume.Some?)
      && r.scene.lights == e.scene.lights
  {
    BuildSceneTrace(e, p, env);
    LoadingBuildsNoDefault(e, p, env);
    BuildSceneState(e, p, env);
    AfterLoadSteps(Loaded(e, p, env), env);
  }

  lemma TailAddsNothing(b: Engine, env: Environment)
    ensures var fb := DefaultSceneFallback(b); var tail := SceneHead + fb + SceneFinish(Run(b, fb), env);
      InstallRecreate !in tail && forall l :: AddLight(l) !in tail
  {
    var fb := DefaultSceneFallback(b);
    var fin := SceneFinish(Run(b, fb), env);
    assert forall ev :: ev in SceneHead + fb + fin ==> ev in SceneHead || ev in fb || ev in fin;
  }

  lemma BuildSceneCallsAddNothing(e: Engine, p: Parameters, env: Environment)
    ensures InstallRecreate !in BuildSceneCalls(e, p, env)
    ensures forall l :: AddLight(l) !in BuildSceneCalls(e, p, env)
  {
    var l := Loaded(e, p, env);
    var b := Run(l, SceneHead);
    var fb := DefaultSceneFallback(b);
    var tail := SceneHead + fb + SceneFinish(Run(b, fb), env);
    var loads := LoadEvents(p, env, |e.scene.materials|, e.scene.volume);
    assert BuildSceneCalls(e, p, env) == loads + tail;
    LoadingBuildsNoDefault(e, p, env);
    TailAddsNothing(b, env);
  }

  lemma CreatedTrace(id: nat, p: Parameters, env: Environment)
    ensures var lit := SunLit(id, p.rendering.engine, env);
      CreatedEngine(id, p, env).trace == [AddLight(SunLight(env))] + BuildSceneCalls(lit, p, env) + [InstallRecreate]
  {
    BuildSceneTrace(SunLit(id, p.rendering.engine, env), p, env);
  }

  lemma CreatedLights(id: nat, p: Parameters, env: Environment)
    ensures CreatedEngine(id, p, env).scene.lights == [SunLight(env)]
  {
    BuildSceneState(SunLit(id, p.rendering.engine, env), p, env);
  }

  /** createEngine: the sun light is added first and is the only light of
      the new engine; buildScene follows, adding no light, and the recreate
      callback is installed last. */
  lemma CreationOrder(id: nat, p: Parameters, env: Environment)
    ensures var r := CreatedEngine(id, p, env); var calls := BuildSceneCalls(SunLit(id, p.rendering.engine, env), p, env);
      && r.scene.lights == [SunLight(env)]
      && r.trace == [AddLight(SunLight(env))] + calls + [InstallRecreate]
      && InstallRecreate !in calls && (forall l :: AddLight(l) !in calls)
  {
    CreatedTrace(id, p, env);
    CreatedLights(id, p, env);
    BuildSceneCallsAddNothing(SunLit(id, p.rendering.engine, env), p, env);
  }

  lemma AfterLoadGrowsBounds(l: Engine, env: Environment, q: Vec3)
    requires Contains(l.scene.bounds, q)
    ensures Contains(AfterLoad(l, env).scene.bounds, q)
  {
    var b := Run(l, SceneHead);
    RunGrowsBounds(l, SceneHead, q);
    var f := Run(b, DefaultSceneFallback(b));
    RunGrowsBounds(b, DefaultSceneFallback(b), q);
    RunGrowsBounds(f, SceneFinish(f, env), q);
  }

  /** With a volume handler, the created scene's bounds hold the origin and
      the volume's far corner. */
  lemma CreatedSceneContainsVolume(id: nat, p: Parameters, env: Environment)
    requires env.volume.Some?
    ensures var r := CreatedEngine(id, p, env);
      && Contains(r.scene.bounds, Origin)
      && Contains(r.scene.bounds, VolumeFarCorner(env.volume.value, p.volume.elementSpacing))
  {
    var lit := SunLit(id, p.rendering.engine, env);
    VolumeInsideWorldBounds(lit, p, env);
    var l := Loaded(lit, p, env);
    AfterLoadGrowsBounds(l, env, Origin);
    AfterLoadGrowsBounds(l, env, VolumeFarCorner(env.volume.value, p.volume.elementSpacing));
  }

  lemma LoadedIgnoresIdentity(e: Engine, p: Parameters, env: Environment, id: nat)
    ensures Loaded(e.(id := id), p, env) == Loaded(e, p, env).(id := id)
  {
    RunIgnoresIdentity(e, LoadEvents(p, env, |e.scene.materials|, e.scene.volume), id);
  }

  /** Two creations differ in nothing but the handle. */
  lemma CreationIgnoresHandle(id: nat, id': nat, p: Parameters, env: Environment)
    ensures CreatedEngine(id', p, env) == CreatedEngine(id, p, env).(id := id')
  {
    var lit := SunLit(id, p.rendering.engine, env);
    var lit' := SunLit(id', p.rendering.engine, env);
    StepIgnoresIdentity(FreshEngine(id, p.rendering.engine, env), AddLight(SunLight(env)), id');
    assert lit' == lit.(id := id');
    BuildSceneIgnoresIdentity(lit, p, env, id');
    var r := BuildSceneResult(lit, p, env);
    assert BuildSceneResult(lit', p, env) == r.(id := id');
    StepIgnoresIdentity(r, InstallRecreate, id');
  }

  lemma BuildSceneIgnoresIdentity(e: Engine, p: Parameters, env: Environment, id: nat)
    ensures BuildSceneResult(e.(id := id), p, env) == BuildSceneResult(e, p, env).(id := id)
  {
    LoadedIgnoresIdentity(e, p, env, id);
    AfterLoadIgnoresIdentity(Loaded(e, p, env), env, id);
  }

  /** The engine the frame continues with after the extensions: the one
      prepared for the frame, or, after a recreate, a new one (none if the
      recreated name is unsupported). */
  function AfterExtensions(prepared: Engine, nextId: nat, ext: ExtensionEffect, env: Environment): Option<Engine> {
    if !ext.recreate then Some(prepared)
    else if ext.params.rendering.engine in env.supportedEngines then Some(CreatedEngine(nextId, ext.params, env))
    else None
  }

  /** The calls render(input, output) issues before the extensions. */
  function HeadlessPrefix(input: RenderInput): seq<Event> {
    [CameraSet(Camera(input.position, input.target, input.up)), Reshape(input.windowSize), PreRender]
  }

  /** At the buffer copy of a headless frame the frame size is the input's
      window size, whether or not the extensions swapped the engine, so the
      colour copy has width*height*depth bytes. */
  lemma HeadlessOutputSize(e: Engine, p: Parameters, input: RenderInput, swapped: bool)
    ensures var e1 := Run(e, HeadlessPrefix(input));
      var size := Run(e1, HeadlessTail(e1, p, swapped, input.windowSize)).frameSize;
      size == input.windowSize
  {
    var e1 := Run(e, HeadlessPrefix(input));
    var cs := CameraSet(Camera(input.position, input.target, input.up));
    RunSnoc(e, [], cs);
    RunSnoc(e, [cs], Reshape(input.windowSize));
    assert [cs] + [Reshape(input.windowSize)] == [cs, Reshape(input.windowSize)];
    RunSnoc(e, [cs, Reshape(input.windowSize)], PreRender);
    assert [cs, Reshape(input.windowSize)] + [PreRender] == HeadlessPrefix(input);
    TailFrameSize(e1, p, swapped, input.windowSize);
  }

  /** Brayns::Impl. The engine is a value held by the orchestrator; the
      factory bookkeeping says which handle is live. */
  class Impl {
    const env: Environment
    var params: Parameters
    var engine: Option<Engine>
    var manipulator: Option<CameraManipulator>
    var factory: FactoryState

    /** The factory holds exactly the current engine, whose handle it issued,
        and an engine always has at least its sun light. */
    predicate Valid()
      reads this
    {
      && factory.live == (if engine.Some? then {engine.value.id} else {})
      && (engine.Some? ==> engine.value.id < factory.nextId && |engine.value.scene.lights| > 0)
    }

    /** Only the engine changed. */
    twostate predicate OnlyEngineChanged()
      reads this
    {
      params == old(params) && manipulator == old(manipulator) && factory == old(factory)
    }

    /** One call on the current engine. */
    method Perform(ev: Event)
      requires engine.Some?
      modifies this
      ensures engine == Some(Step(old(engine.value), ev))
      ensures OnlyEngineChanged()
      ensures old(Valid()) ==> Valid()
    {
      engine := Some(Step(engine.value, ev));
    }

    /** A loader call; with `logged`, a failure is reported. */
    method CallLoader(step: LoadStep, logged: bool) returns (ok: bool)
      requires Valid() && engine.Some?
      modifies this
      ensures Valid() && OnlyEngineChanged()
      ensures engine == Some(Run(old(engine.value), ImportCall(env, step, logged)))
      ensures ok == env.importer(step).ok
    {
      ghost var e0 := engine.value;
      var r := env.importer(step);
      Perform(Import(step, r));
      if logged && !r.ok {
        Perform(ImportFailed(step));
        assert ImportCall(env, step, logged) == [Import(step, r), ImportFailed(step)];
      } else {
        assert ImportCall(env, step, logged) == [Import(step, r)];
      }
      ok := r.ok;
    }

    /** The colour map reload shared by the NEST and report loaders. */
    method ReloadTransferFunction()
      requires Valid() && engine.Some?
      modifies this
      ensures Valid() && OnlyEngineChanged()
      ensures engine == Some(Run(old(engine.value), TransferFunctionReload(params, env)))
    {
      ghost var e0 := engine.value;
      var cm := params.scene.colorMapFilename;
      if cm != "" {
        var _ := CallLoader(LoadTransferFunction(cm), false);
        ghost var call := ImportCall(env, LoadTransferFunction(cm), false);
        Perform(CommitTransferFunctionData);
        RunSnoc(e0, call, CommitTransferFunctionData);
      }
    }

    /** _loadPDBFile: the protein is imported, then every material of the
        scene takes the protein loader's colour for its index. */
    method LoadPDBFile(filename: string)
      requires Valid() && engine.Some?
      modifies this
      ensures Valid() && OnlyEngineChanged()
      ensures engine == Some(Run(old(engine.value),
        PdbFileEvents(params, env, filename, |old(engine.value).scene.materials|)))
    {
      ghost var e0 := engine.value;
      var pdbFile := if filename == "" then params.geometry.pdbFile else filename;
      var _ := CallLoader(ImportPDB(pdbFile), true);
      ghost var e1 := engine.value;
      var n := |engine.value.scene.materials|;
      var i := 0;
      while i < n
        invariant 0 <= i <= n
        invariant Valid() && OnlyEngineChanged()
        invariant engine == Some(Run(e1, RecolorEvents(env, i)))
      {
        Perform(SetMaterialColor(i, env.proteinKd(i)));
        RunSnoc(e1, RecolorEvents(env, i), SetMaterialColor(i, env.proteinKd(i)));
        i := i + 1;
      }
      RunAppend(e0, ImportCall(env, ImportPDB(pdbFile), true), RecolorEvents(env, n));
    }

    /** _loadMorphologyFolder: every parsed file is imported with its
        position as index. */
    method LoadMorphologyFolder()
      requires Valid() && engine.Some?
      modifies this
      ensures Valid() && OnlyEngineChanged()
      ensures engine == Some(Run(old(engine.value),
        BatchEvents(MorphologyBatch, params, env, 0, env.parseFolder(params.geometry.morphologyFolder, MorphologyFiles))))
    {
      ghost var e0 := engine.value;
      var files := env.parseFolder(params.geometry.morphologyFolder, MorphologyFiles);
      var progress := 0;
      while progress < |files|
        invariant 0 <= progress <= |files|
        invariant Valid() && OnlyEngineChanged()
        invariant engine == Some(Run(e0, BatchEvents(MorphologyBatch, params, env, 0, files[..progress])))
      {
        var _ := CallLoader(ImportMorphology(files[progress], progress), true);
        BatchStepRun(e0, MorphologyBatch, params, env, 0, files, progress);
        progress := progress + 1;
      }
      assert files[..|files|] == files;
    }

    /** _loadPDBFolder: every parsed file goes through _loadPDBFile. */
    method LoadPDBFolder()
      requires Valid() && engine.Some?
      modifies this
      ensures Valid() && OnlyEngineChanged()
      ensures engine == Some(Run(old(engine.value),
        BatchEvents(PdbBatch, params, env, |old(engine.value).scene.materials|,
                    env.parseFolder(params.geometry.pdbFolder, PdbFiles))))
    {
      ghost var e0 := engine.value;
      ghost var n := |e0.scene.materials|;
      var files := env.parseFolder(params.geometry.pdbFolder, PdbFiles);
      var progress := 0;
      while progress < |files|
        invariant 0 <= progress <= |files|
        invariant Valid() && OnlyEngineChanged()
        invariant engine == Some(Run(e0, BatchEvents(PdbBatch, params, env, n, files[..progress])))
      {
        LoadPDBFile(files[progress]);
        BatchStepRun(e0, PdbBatch, params, env, n, files, progress);
        progress := progress + 1;
      }
      assert files[..|files|] == files;
    }

    /** _loadMeshFolder: with the mesh library every parsed file is imported
        with the quality and material its position and the parameters give;
        without it the folder is only reported. */
    method LoadMeshFolder(folder: string)
      requires Valid() && engine.Some?
      modifies this
      ensures Valid() && OnlyEngineChanged()
      ensures engine == Some(Run(old(engine.value), MeshFolderEvents(params, env, folder)))
    {
      if !env.hasAssimp {
        ghost var e0 := engine.value;
        Perform(AssimpMissing(folder));
        assert MeshFolderEvents(params, env, folder) == [AssimpMissing(folder)];
        return;
      }
      ghost var e0 := engine.value;
      var files := env.parseFolder(folder, MeshFiles);
      var progress := 0;
      while progress < |files|
        invariant 0 <= progress <= |files|
        invariant Valid() && OnlyEngineChanged()
        invariant engine == Some(Run(e0, BatchEvents(MeshBatch, params, env, 0, files[..progress])))
      {
        LoadMeshFile(files[progress], progress);
        BatchStepRun(e0, MeshBatch, params, env, 0, files, progress);
        progress := progress + 1;
      }
      assert files[..|files|] == files;
    }

    /** One pass of _loadMeshFolder's loop: the material follows the file's
        position when meshes are coloured by id. */
    method LoadMeshFile(file: string, progress: nat)
      requires Valid() && engine.Some?
      modifies this
      ensures Valid() && OnlyEngineChanged()
      ensures engine == Some(Run(old(engine.value), FileEvents(MeshBatch, params, env, 0, file, progress)))
    {
      var material := if params.geometry.colorScheme == NeuronById
        then MaterialIndex(progress % (env.layout.maxMaterials - env.layout.systemMaterials))
        else NoMaterial;
      var quality := MeshQualityFor(params.geometry.geometryQuality);
      var _ := CallLoader(ImportMesh(file, quality, material), true);
    }

    /** _loadNESTCircuit: circuit and spike report are imported, the cache
        file attached when given and the colour map loaded again. */
    method LoadNESTCircuit()
      requires Valid() && engine.Some?
      modifies this
      ensures Valid() && OnlyEngineChanged()
      ensures engine == Some(Run(old(engine.value), NestSegment(params, env)))
    {
      ghost var e0 := engine.value;
      var g := params.geometry;
      if g.nestCircuit != "" {
        var _ := CallLoader(ImportNESTCircuit(g.nestCircuit), false);
        ghost var a := ImportCall(env, ImportNESTCircuit(g.nestCircuit), false);
        var _ := CallLoader(ImportSpikeReport(g.nestReport), false);
        ghost var b := ImportCall(env, ImportSpikeReport(g.nestReport), false);
        RunAppend(e0, a, b);
        ghost var c: seq<Event> := [];
        if g.nestCacheFile != "" {
          Perform(AttachSpikeCache(g.nestCacheFile));
          c := [AttachSpikeCache(g.nestCacheFile)];
          RunSnoc(e0, a + b, AttachSpikeCache(g.nestCacheFile));
        }
        assert engine == Some(Run(e0, a + b + c));
        ReloadTransferFunction();
        RunAppend(e0, a + b + c, TransferFunctionReload(params, env));
      }
    }

    /** _loadXYZBFile. */
    method LoadXYZBFile()
      requires Valid() && engine.Some?
      modifies this
      ensures Valid() && OnlyEngineChanged()
      ensures engine == Some(Run(old(engine.value), ImportCall(env, ImportXYZB(params.geometry.xyzbFile), true)))
    {
      var _ := CallLoader(ImportXYZB(params.geometry.xyzbFile), true);
    }

    /** _loadCircuitConfiguration: the report, when given, is imported with
        the circuit. */
    method LoadCircuitConfiguration()
      requires Valid() && engine.Some?
      modifies this
      ensures Valid() && OnlyEngineChanged()
      ensures engine == Some(Run(old(engine.value), ImportCall(env, CircuitStep(params), false)))
    {
      var g := params.geometry;
      var step := if g.report == "" then ImportCircuit(g.circuitConfiguration, g.target)
                  else ImportCircuitWithReport(g.circuitConfiguration, g.target, g.report);
      var _ := CallLoader(step, false);
    }

    /** _loadCompartmentReport. */
    method LoadCompartmentReport()
      requires Valid() && engine.Some?
      modifies this
      ensures Valid() && OnlyEngineChanged()
      ensures engine == Some(Run(old(engine.value), ReportEvents(params, env)))
    {
      ghost var e0 := engine.value;
      var g := params.geometry;
      var ok := CallLoader(ImportSimulationData(g.circuitConfiguration, g.target, g.report), false);
      if ok {
        ReloadTransferFunction();
        RunAppend(e0, ImportCall(env, ReportStep(params), false), TransferFunctionReload(params, env));
      } else {
        assert ReportEvents(params, env) == ImportCall(env, ReportStep(params), false) + [];
      }
    }

    /** _loadMolecularSystem. */
    method LoadMolecularSystem()
      requires Valid() && engine.Some?
      modifies this
      ensures Valid() && OnlyEngineChanged()
      ensures engine == Some(Run(old(engine.value), MolecularEvents(params, env)))
    {
      if env.hasAssimp {
        var _ := CallLoader(ImportMolecularSystem(params.geometry.molecularSystemConfig), false);
      } else {
        ghost var e0 := engine.value;
        Perform(AssimpMissing("molecular meshes"));
        assert MolecularEvents(params, env) == [AssimpMissing("molecular meshes")];
      }
    }

    /** Brayns(argc, argv): the keyboard shortcuts are the fixed Bindings
        table; the factory starts empty and createEngine runs once, so the
        first engine has handle 0. An unsupported engine name leaves no
        engine (the source throws). */
    constructor (env: Environment, p: Parameters)
      ensures this.env == env && params == p && Valid()
      ensures p.rendering.engine in env.supportedEngines ==>
        engine == Some(CreatedEngine(0, p, env)) && manipulator == Some(CameraManipulator(Inspect, 0)) &&
        factory == FactoryState(1, {0}, [])
      ensures p.rendering.engine !in env.supportedEngines ==>
        engine.None? && manipulator.None? && factory == FactoryState(0, {}, [])
    {
      this.env := env;
      params := p;
      engine := None;
      manipulator := None;
      factory := FactoryState(0, {}, []);
      new;
      var _ := CreateEngine();
    }

    /** createEngine: the current engine goes back to the factory first; an
        unsupported name is an error and leaves no engine; otherwise the new
        engine gets a fresh handle, the sun light, the built scene and last
        the recreate callback. */
    method CreateEngine() returns (outcome: Outcome)
      requires Valid()
      modifies this
      ensures Valid() && params == old(params)
      ensures factory.removed == old(factory.removed) + (if old(engine).Some? then [old(engine).value.id] else [])
      ensures var name := params.rendering.engine;
        && (name in env.supportedEngines ==>
              && outcome == Pass
              && engine == Some(CreatedEngine(old(factory.nextId), params, env))
              && manipulator == Some(CameraManipulator(Inspect, old(factory.nextId)))
              && factory.nextId == old(factory.nextId) + 1)
        && (name !in env.supportedEngines ==>
              && outcome == Fail("Unsupported engine: " + name)
              && engine.None? && manipulator == old(manipulator) && factory.nextId == old(factory.nextId))
      ensures old(engine).Some? && engine.Some? ==> engine.value.id != old(engine).value.id
    {
      if engine.Some? {
        var id := engine.value.id;
        factory := factory.(live := factory.live - {id}, removed := factory.removed + [id]);
        engine := None;
      }
      var name := params.rendering.engine;
      if name !in env.supportedEngines {
        return Fail("Unsupported engine: " + name);
      }
      var id := factory.nextId;
      factory := factory.(nextId := id + 1, live := factory.live + {id});
      engine := Some(FreshEngine(id, name, env));
      Perform(AddLight(SunLight(env)));
      assert engine.value == SunLit(id, name, env);
      BuildScene();
      Perform(InstallRecreate);
      outcome := Pass;
    }

    /** buildScene: after loading, volume and simulation data are committed
        and the geometry built; an empty scene without volume gets the default
        scene; then the scene is committed, the manipulator reset to inspect
        mode on the engine's camera, the camera fitted to the world bounds,
        the epsilon set and the engine committed. */
    method BuildScene()
      requires Valid() && engine.Some?
      modifies this
      ensures Valid() && params == old(params) && factory == old(factory)
      ensures engine == Some(BuildSceneResult(old(engine.value), params, env))
      ensures manipulator == Some(CameraManipulator(Inspect, old(engine.value).id))
    {
      ghost var e0 := engine.value;
      LoadData();
      ghost var l := engine.value;
      CommitAndBuild();
      ghost var b := engine.value;
      if Empty(engine.value.scene) && engine.value.scene.volume.None? {
        Perform(BuildDefault);
        Perform(BuildGeometry);
        RunTwo(b, BuildDefault, BuildGeometry);
      }
      FinishScene();
    }

    /** The end of buildScene, from the scene commit on. */
    method FinishScene()
      requires Valid() && engine.Some?
      modifies this
      ensures Valid() && params == old(params) && factory == old(factory)
      ensures engine == Some(Run(old(engine.value), SceneFinish(old(engine.value), env)))
      ensures manipulator == Some(CameraManipulator(Inspect, old(engine.value).id))
    {
      ghost var f := engine.value;
      Perform(SceneCommit);
      SetupCameraManipulator(Inspect);
      assert engine.value.scene == f.scene;
      Perform(SetDefaultCamera(env.defaultCamera(engine.value.scene.bounds)));
      Perform(SetDefaultEpsilon);
      Perform(Commit);
      RunFive(f, SceneCommit, ManipulatorBound(Inspect), SetDefaultCamera(env.defaultCamera(f.scene.bounds)),
              SetDefaultEpsilon, Commit);
    }

    /** The commits and the geometry build of buildScene. */
    method CommitAndBuild()
      requires Valid() && engine.Some?
      modifies this
      ensures Valid() && OnlyEngineChanged()
      ensures engine == Some(Run(old(engine.value), SceneHead))
    {
      ghost var e0 := engine.value;
      Perform(CommitVolumeData);
      Perform(CommitSimulationData);
      Perform(BuildEnvironment);
      Perform(BuildGeometry);
      RunFour(e0, CommitVolumeData, CommitSimulationData, BuildEnvironment, BuildGeometry);
    }

    /** _setupCameraManipulator: the manipulator is replaced by one of the
        given mode attached to the current engine's camera. */
    method SetupCameraManipulator(mode: CameraMode)
      requires Valid() && engine.Some?
      modifies this
      ensures Valid() && params == old(params) && factory == old(factory)
      ensures manipulator == Some(CameraManipulator(mode, old(engine.value).id))
      ensures engine == Some(Step(old(engine.value), ManipulatorBound(mode)))
    {
      manipulator := None;
      Perform(ManipulatorBound(mode));
      manipulator := Some(CameraManipulator(mode, engine.value.id));
    }

    /** The extension plugins of a frame: they set the parameters and may
        call the engine's recreate callback, which is createEngine. */
    method ExecuteExtensions(ext: ExtensionEffect) returns (outcome: Outcome)
      requires Valid() && engine.Some?
      modifies this
      ensures Valid() && params == ext.params
      ensures !ext.recreate ==>
        outcome == Pass && engine == old(engine) && manipulator == old(manipulator) && factory == old(factory)
      ensures ext.recreate ==>
        && factory.removed == old(factory.removed) + [old(engine).value.id]
        && (ext.params.rendering.engine in env.supportedEngines ==>
              && outcome == Pass
              && engine == Some(CreatedEngine(old(factory.nextId), ext.params, env))
              && engine.value.id != old(engine).value.id
              && manipulator == Some(CameraManipulator(Inspect, engine.value.id))
              && factory.nextId == old(factory.nextId) + 1)
        && (ext.params.rendering.engine !in env.supportedEngines ==>
              && outcome == Fail("Unsupported engine: " + ext.params.rendering.engine) && engine.None?
              && manipulator == old(manipulator) && factory.nextId == old(factory.nextId))
    {
      params := ext.params;
      if ext.recreate {
        outcome := CreateEngine();
      } else {
        outcome := Pass;
      }
    }

    /** render(input, output): the camera is placed and the engine reshaped
        and prepared; after the extensions, a recreated engine is reshaped
        and prepared again, the frame rendered, the buffers copied at the
        window size and the frame closed with postRender. If the extensions
        recreated an engine of an unsupported name, the error is returned
        and there is no engine. */
    method RenderHeadless(input: RenderInput, output: RenderOutput, ext: ExtensionEffect, fb: BackendBuffers)
      returns (result: Result<RenderOutput>)
      requires Valid() && engine.Some?
      modifies this
      ensures Valid() && params == ext.params
      ensures !ext.recreate ==> manipulator == old(manipulator) && factory == old(factory)
      ensures ext.recreate ==>
        && factory.removed == old(factory.removed) + [old(engine).value.id]
        && (engine.Some? ==> manipulator == Some(CameraManipulator(Inspect, old(factory.nextId))) &&
                             factory.nextId == old(factory.nextId) + 1)
        && (engine.None? ==> manipulator == old(manipulator) && factory.nextId == old(factory.nextId))
      ensures var next := AfterExtensions(Run(old(engine.value), HeadlessPrefix(input)), old(factory.nextId), ext, env);
        && (next.None? ==> engine.None? && result == Failure("Unsupported engine: " + ext.params.rendering.engine))
        && (next.Some? ==>
              && engine == Some(Step(Run(next.value, HeadlessTail(next.value, ext.params, ext.recreate, input.windowSize)),
                                     PostRender))
              && result == Success(ExtractOutput(fb, input.windowSize, output)))
    {
      ghost var e0 := engine.value;
      var ws := input.windowSize;
      Perform(CameraSet(Camera(input.position, input.target, input.up)));
      Perform(Reshape(ws));
      Perform(PreRender);
      RunThree(e0, CameraSet(Camera(input.position, input.target, input.up)), Reshape(ws), PreRender);
      ghost var prepared := engine.value;
      var oldId := engine.value.id;
      var outcome := ExecuteExtensions(ext);
      if outcome.Fail? {
        return Failure(outcome.error);
      }
      var swapped := engine.value.id != oldId;
      ghost var e1 := engine.value;
      HeadlessFrame(swapped, ws);
      if swapped {
        TailFrameSize(e1, params, swapped, ws);
      } else {
        HeadlessOutputSize(e0, params, input, swapped);
      }
      var size := engine.value.frameSize;
      result := Success(ExtractOutput(fb, size, output));
      Perform(PostRender);
    }

    /** The rest of render(input, output) up to the buffer copy: re-sync
        after a swap, the commit when animating, the camera commit, the head
        light and the render call. */
    method HeadlessFrame(swapped: bool, ws: Size)
      requires Valid() && engine.Some?
      modifies this
      ensures Valid() && OnlyEngineChanged()
      ensures engine == Some(Run(old(engine.value), HeadlessTail(old(engine.value), params, swapped, ws)))
    {
      ghost var e1 := engine.value;
      if swapped {
        Perform(Reshape(ws));
        Perform(PreRender);
        RunTwo(e1, Reshape(ws), PreRender);
      }
      ghost var s1 := engine.value;
      CommitIfAnimating();
      ghost var s2 := engine.value;
      Chain(e1, s1, s2, Resync(swapped, ws), AnimationCommit(params));
      Perform(CameraCommit);
      RunSnoc(e1, Resync(swapped, ws) + AnimationCommit(params), CameraCommit);
      ghost var pre := HeadlessPre(params, swapped, ws);
      ghost var s3 := engine.value;
      HeadlessPreKeepsView(e1, params, swapped, ws);
      AimHeadLight();
      ghost var s4 := engine.value;
      Chain(e1, s3, s4, pre, HeadLightEvents(e1, params));
      RenderWithActiveRenderer();
      Chain(e1, s4, engine.value, pre + HeadLightEvents(e1, params), RenderCall(params));
    }

    /** render(): the engine is reshaped to the window size read before the
        extensions and prepared; after the extensions, a recreated engine is
        reshaped and prepared again, the head light aimed before the camera
        commit, and the frame rendered and closed. */
    method RenderInteractive(ext: ExtensionEffect) returns (outcome: Outcome)
      requires Valid() && engine.Some?
      modifies this
      ensures Valid() && params == ext.params
      ensures !ext.recreate ==> manipulator == old(manipulator) && factory == old(factory)
      ensures ext.recreate ==>
        && factory.removed == old(factory.removed) + [old(engine).value.id]
        && (engine.Some? ==> manipulator == Some(CameraManipulator(Inspect, old(factory.nextId))) &&
                             factory.nextId == old(factory.nextId) + 1)
        && (engine.None? ==> manipulator == old(manipulator) && factory.nextId == old(factory.nextId))
      ensures var ws := old(params.application.windowSize);
        var next := AfterExtensions(Run(old(engine.value), [Reshape(ws), PreRender]), old(factory.nextId), ext, env);
        && (next.None? ==> engine.None? && outcome == Fail("Unsupported engine: " + ext.params.rendering.engine))
        && (next.Some? ==>
              && engine == Some(Step(Run(next.value, InteractiveTail(next.value, ext.params, ext.recreate, ws)), PostRender))
              && outcome == Pass)
    {
      var ws := params.application.windowSize;
      ghost var e0 := engine.value;
      Perform(Reshape(ws));
      Perform(PreRender);
      RunTwo(e0, Reshape(ws), PreRender);
      var oldId := engine.value.id;
      outcome := ExecuteExtensions(ext);
      if outcome.Fail? {
        return;
      }
      var swapped := engine.value.id != oldId;
      InteractiveFrame(swapped, ws);
      Perform(PostRender);
    }

    /** The rest of render() before postRender. */
    method InteractiveFrame(swapped: bool, ws: Size)
      requires Valid() && engine.Some?
      modifies this
      ensures Valid() && OnlyEngineChanged()
      ensures engine == Some(Run(old(engine.value), InteractiveTail(old(engine.value), params, swapped, ws)))
    {
      ghost var e1 := engine.value;
      if swapped {
        Perform(Reshape(ws));
        Perform(PreRender);
        RunTwo(e1, Reshape(ws), PreRender);
      }
      ghost var s1 := engine.value;
      CommitIfAnimating();
      ghost var s2 := engine.value;
      Chain(e1, s1, s2, Resync(swapped, ws), AnimationCommit(params));
      ghost var pre := InteractivePre(params, swapped, ws);
      InteractivePreKeepsView(e1, params, swapped, ws);
      AimHeadLight();
      ghost var s3 := engine.value;
      Chain(e1, s2, s3, pre, HeadLightEvents(e1, params));
      Perform(CameraCommit);
      RunSnoc(e1, pre + HeadLightEvents(e1, params), CameraCommit);
      ghost var s4 := engine.value;
      RenderWithActiveRenderer();
      Chain(e1, s4, engine.value, pre + HeadLightEvents(e1, params) + [CameraCommit], RenderCall(params));
    }

    /** A non-zero animation delta commits the engine. */
    method CommitIfAnimating()
      requires Valid() && engine.Some?
      modifies this
      ensures Valid() && OnlyEngineChanged()
      ensures engine == Some(Run(old(engine.value), AnimationCommit(params)))
    {
      ghost var e0 := engine.value;
      if params.scene.animationDelta != 0 {
        Perform(Commit);
        RunSnoc(e0, [], Commit);
        assert [] + [Commit] == AnimationCommit(params);
      }
    }

    /** With the head light on and a directional light 0, light 0 is aimed
        from the camera position at its target and the lights committed. */
    method AimHeadLight()
      requires Valid() && engine.Some?
      modifies this
      ensures Valid() && OnlyEngineChanged()
      ensures engine == Some(Run(old(engine.value), HeadLightEvents(old(engine.value), params)))
    {
      ghost var e0 := engine.value;
      if params.rendering.headLight {
        var lights := engine.value.scene.lights;
        if |lights| > 0 && lights[0].directional {
          var camera := engine.value.camera;
          Perform(AimLight0(camera.target.Minus(camera.position)));
          Perform(CommitLights);
          RunTwo(e0, AimLight0(camera.target.Minus(camera.position)), CommitLights);
        }
      }
    }

    /** _render: the configured renderer is activated and the frame rendered. */
    method RenderWithActiveRenderer()
      requires Valid() && engine.Some?
      modifies this
      ensures Valid() && OnlyEngineChanged()
      ensures engine == Some(Run(old(engine.value), RenderCall(params)))
    {
      ghost var e0 := engine.value;
      Perform(SetActiveRenderer(params.rendering.renderer));
      Perform(Render);
      RunTwo(e0, SetActiveRenderer(params.rendering.renderer), Render);
    }

    /** The keyboard handler: a key with a registered shortcut runs its
        handler; the fly and inspect keys switch the camera manipulator, the
        samples-per-ray keys also commit the volume data, every other handler
        only updates the parameters; an unregistered key does nothing. */
    method KeyPressed(key: char)
      requires Valid() && engine.Some?
      modifies this
      ensures Valid() && factory == old(factory)
      ensures CommandFor(Bindings, key).None? ==>
        params == old(params) && engine == old(engine) && manipulator == old(manipulator)
      ensures CommandFor(Bindings, key).Some? ==> Handled(CommandFor(Bindings, key).value)
    {
      var c := CommandFor(Bindings, key);
      if c.Some? {
        Handle(c.value);
      }
    }

    /** What running the handler of c did. */
    twostate predicate Handled(c: Command)
      reads this
    {
      && old(engine).Some?
      && (c == FlyMode ==>
            && params == old(params)
            && manipulator == Some(CameraManipulator(Flying, old(engine).value.id))
            && engine == Some(Step(old(engine).value, ManipulatorBound(Flying))))
      && (c == InspectMode ==>
            && params == old(params)
            && manipulator == Some(CameraManipulator(Inspect, old(engine).value.id))
            && engine == Some(Step(old(engine).value, ManipulatorBound(Inspect))))
      && (Touched(c) == SamplesField ==>
            && params == Apply(c, old(params)) && manipulator == old(manipulator)
            && engine == Some(Step(old(engine).value, CommitVolumeData)))
      && (Touched(c) != SamplesField && Touched(c) != NoField ==>
            params == Apply(c, old(params)) && manipulator == old(manipulator) && engine == old(engine))
    }

    /** The handler of a shortcut. */
    method Handle(c: Command)
      requires Valid() && engine.Some?
      modifies this
      ensures Valid() && factory == old(factory)
      ensures Handled(c)
    {
      if c == FlyMode {
        SetupCameraManipulator(Flying);
      } else if c == InspectMode {
        SetupCameraManipulator(Inspect);
      } else {
        params := Apply(c, params);
        if Touched(c) == SamplesField {
          Perform(CommitVolumeData);
        }
      }
    }

    /** _loadData: the scene setup, then every loader whose parameter is
        given, in the fixed order, then a volume puts the origin and its far
        corner into the world bounds. */
    method LoadData()
      requires Valid() && engine.Some?
      modifies this
      ensures Valid() && OnlyEngineChanged()
      ensures engine == Some(Loaded(old(engine.value), params, env))
    {
      ghost var s0 := engine.value;
      ghost var n := |s0.scene.materials|;
      LoadSceneSetup();
      ghost var s1 := engine.value;
      RunLoaders();
      ghost var s2 := engine.value;
      Chain(s0, s1, s2, SetupSegments(params, env), LoaderSegments(params, env, n));
      VolumeSegmentFootprint(s2.scene.volume, s0.scene.volume, params.volume.elementSpacing);
      FitVolume();
      Chain(s0, s2, engine.value, SetupSegments(params, env) + LoaderSegments(params, env, n),
            VolumeSegment(s0.scene.volume, params.volume.elementSpacing));
      LoadEventsParts(params, env, n, s0.scene.volume);
    }

    /** The start of _loadData: the environment map when given, the splash
        scene folder when given, the colour map when given and in every case
        the transfer function commit. */
    method LoadSceneSetup()
      requires Valid() && engine.Some?
      modifies this
      ensures Valid() && OnlyEngineChanged()
      ensures engine == Some(Run(old(engine.value), SetupSegments(params, env)))
    {
      ghost var s0 := engine.value;
      var g := params.geometry;
      var environmentMap := params.scene.environmentMap;
      if environmentMap != "" {
        Perform(SetSkyboxTexture(environmentMap));
        RunSnoc(s0, [], SetSkyboxTexture(environmentMap));
        assert [] + [SetSkyboxTexture(environmentMap)] == EnvironmentMapSegment(params);
      }
      ghost var s1 := engine.value;
      if g.splashSceneFolder != "" {
        LoadMeshFolder(g.splashSceneFolder);
      }
      ghost var s2 := engine.value;
      Chain(s0, s1, s2, EnvironmentMapSegment(params), SplashSegment(params, env));
      var cm := params.scene.colorMapFilename;
      if cm != "" {
        var _ := CallLoader(LoadTransferFunction(cm), false);
      }
      ghost var tf := if cm != "" then ImportCall(env, LoadTransferFunction(cm), false) else [];
      Perform(CommitTransferFunctionData);
      RunSnoc(s2, tf, CommitTransferFunctionData);
      Chain(s0, s2, engine.value, EnvironmentMapSegment(params) + SplashSegment(params, env), ColorMapSegment(params, env));
    }

    /** The loaders of _loadData: each runs exactly when its parameter is
        given (the circuit only without a cache file), in the fixed order. */
    method RunLoaders()
      requires Valid() && engine.Some?
      modifies this
      ensures Valid() && OnlyEngineChanged()
      ensures engine == Some(Run(old(engine.value), LoaderSegments(params, env, |old(engine.value).scene.materials|)))
    {
      ghost var s0 := engine.value;
      ghost var n := |s0.scene.materials|;
      LoadNeuronsAndProtein();
      ghost var s1 := engine.value;
      LoadFoldersAndReport();
      ghost var s2 := engine.value;
      Chain(s0, s1, s2, NeuronAndProteinSegments(params, env, n), FolderAndReportSegments(params, env, n));
      LoadCircuitAndSystems();
      Chain(s0, s2, engine.value, NeuronAndProteinSegments(params, env, n) + FolderAndReportSegments(params, env, n),
            CircuitAndSystemSegments(params, env));
    }

    /** Morphology folder, NEST circuit and PDB file, each when given. */
    method LoadNeuronsAndProtein()
      requires Valid() && engine.Some?
      modifies this
      ensures Valid() && OnlyEngineChanged()
      ensures engine == Some(Run(old(engine.value), NeuronAndProteinSegments(params, env, |old(engine.value).scene.materials|)))
    {
      ghost var s0 := engine.value;
      ghost var n := |s0.scene.materials|;
      var g := params.geometry;
      if g.morphologyFolder != "" {
        LoadMorphologyFolder();
      }
      ghost var s1 := engine.value;
      if g.nestCircuit != "" {
        LoadNESTCircuit();
      }
      ghost var s2 := engine.value;
      Chain(s0, s1, s2, MorphologySegment(params, env), NestSegment(params, env));
      if g.pdbFile != "" {
        LoadPDBFile(g.pdbFile);
      }
      Chain(s0, s2, engine.value, MorphologySegment(params, env) + NestSegment(params, env), PdbFileSegment(params, env, n));
    }

    /** PDB folder, mesh folder and compartment report, each when given. */
    method LoadFoldersAndReport()
      requires Valid() && engine.Some?
      modifies this
      ensures Valid() && OnlyEngineChanged()
      ensures engine == Some(Run(old(engine.value), FolderAndReportSegments(params, env, |old(engine.value).scene.materials|)))
    {
      ghost var s0 := engine.value;
      ghost var n := |s0.scene.materials|;
      var g := params.geometry;
      if g.pdbFolder != "" {
        LoadPDBFolder();
      }
      ghost var s1 := engine.value;
      if g.meshFolder != "" {
        LoadMeshFolder(g.meshFolder);
      }
      ghost var s2 := engine.value;
      Chain(s0, s1, s2, PdbFolderSegment(params, env, n), MeshSegment(params, env));
      if g.report != "" {
        LoadCompartmentReport();
      }
      Chain(s0, s2, engine.value, PdbFolderSegment(params, env, n) + MeshSegment(params, env), ReportSegment(params, env));
    }

    /** Circuit configuration (only without a cache file), XYZB file and
        molecular system, each when given. */
    method LoadCircuitAndSystems()
      requires Valid() && engine.Some?
      modifies this
      ensures Valid() && OnlyEngineChanged()
      ensures engine == Some(Run(old(engine.value), CircuitAndSystemSegments(params, env)))
    {
      ghost var s0 := engine.value;
      var g := params.geometry;
      if g.circuitConfiguration != "" && g.loadCacheFile == "" {
        LoadCircuitConfiguration();
      }
      ghost var s1 := engine.value;
      if g.xyzbFile != "" {
        LoadXYZBFile();
      }
      ghost var s2 := engine.value;
      Chain(s0, s1, s2, CircuitSegment(params, env), XyzbSegment(params, env));
      if g.molecularSystemConfig != "" {
        LoadMolecularSystem();
      }
      Chain(s0, s2, engine.value, CircuitSegment(params, env) + XyzbSegment(params, env), MolecularSegment(params, env));
    }

    /** The end of _loadData: a volume's timestamp is reset and the origin
        and the volume's far corner are merged into the world bounds. */
    method FitVolume()
      requires Valid() && engine.Some?
      modifies this
      ensures Valid() && OnlyEngineChanged()
      ensures engine == Some(Run(old(engine.value), VolumeSegment(old(engine.value).scene.volume, params.volume.elementSpacing)))
    {
      ghost var e0 := engine.value;
      if engine.value.scene.volume.Some? {
        Perform(SetVolumeTimestamp(0.0));
        var volume := engine.value.scene.volume.value;
        Perform(MergeWorldBounds(Origin));
        Perform(MergeWorldBounds(VolumeFarCorner(volume, params.volume.elementSpacing)));
        RunThree(e0, SetVolumeTimestamp(0.0), MergeWorldBounds(Origin),
                 MergeWorldBounds(VolumeFarCorner(volume, params.volume.elementSpacing)));
        assert VolumeFarCorner(volume, params.volume.elementSpacing)
            == VolumeFarCorner(e0.scene.volume.value, params.volume.elementSpacing);
      }
    }
  }

  /** One more file of a folder loop. */
  lemma BatchStepRun(e0: Engine, b: Batch, p: Parameters, env: Environment, n: nat, files: seq<string>, k: nat)
    requires k < |files|
    ensures Run(Run(e0, BatchEvents(b, p, env, n, files[..k])), FileEvents(b, p, env, n, files[k], k))
         == Run(e0, BatchEvents(b, p, env, n, files[..k + 1]))
  {
    assert files[..k + 1][..k] == files[..k];
    RunAppend(e0, BatchEvents(b, p, env, n, files[..k]), FileEvents(b, p, env, n, files[k], k));
  }
}
