/** Properties of the calls _loadData issues: which loaders run and under
    which parameters, that folder batches attempt every file, the volume
    bounds merge and the PDB material recolouring. */
module LoadingProperties {
  import opened Wrappers
  import opened Geometry
  import opened Params
  import opened Loaders
  import opened Engines
  import opened DataLoading

  /** The loader calls of a trace, in order. */
  function ImportedSteps(evs: seq<Event>): seq<LoadStep>
    decreases |evs|
  {
    if evs == [] then []
    else ImportedSteps(evs[..|evs| - 1]) + (if evs[|evs| - 1].Import? then [evs[|evs| - 1].step] else [])
  }

  lemma {:induction false} ImportedStepsAppend(a: seq<Event>, b: seq<Event>)
    ensures ImportedSteps(a + b) == ImportedSteps(a) + ImportedSteps(b)
    decreases |b|
  {
    if b == [] {
      assert a + b == a;
    } else {
      var b' := b[..|b| - 1];
      assert b == b' + [b[|b| - 1]];
      assert (a + b)[..|a + b| - 1] == a + b';
      ImportedStepsAppend(a, b');
    }
  }

  lemma ImportCallSteps(env: Environment, step: LoadStep, logged: bool)
    ensures ImportedSteps(ImportCall(env, step, logged)) == [step]
  {
    var evs := ImportCall(env, step, logged);
    if logged && !env.importer(step).ok {
      assert evs[..1] == [Import(step, env.importer(step))];
      assert ImportedSteps(evs[..1]) == [step];
    } else {
      assert evs == [Import(step, env.importer(step))];
      assert evs[..0] == [];
    }
  }

  lemma {:induction false} RecolorHasNoImports(env: Environment, n: nat)
    ensures ImportedSteps(RecolorEvents(env, n)) == []
    ensures forall ev :: ev in RecolorEvents(env, n) ==> ev.SetMaterialColor?
    decreases n
  {
    if n > 0 {
      RecolorHasNoImports(env, n - 1);
      ImportedStepsAppend(RecolorEvents(env, n - 1), [SetMaterialColor(n - 1, env.proteinKd(n - 1))]);
      assert ImportedSteps([SetMaterialColor(n - 1, env.proteinKd(n - 1))]) == [] by {
        assert [SetMaterialColor(n - 1, env.proteinKd(n - 1))][..0] == [];
      }
    }
  }

  lemma FileEventsSteps(b: Batch, p: Parameters, env: Environment, n: nat, file: string, progress: nat)
    ensures ImportedSteps(FileEvents(b, p, env, n, file, progress)) == [BatchStep(b, p, env, file, progress)]
  {
    var step := BatchStep(b, p, env, file, progress);
    ImportCallSteps(env, step, true);
    if b == PdbBatch {
      RecolorHasNoImports(env, n);
      ImportedStepsAppend(ImportCall(env, step, true), RecolorEvents(env, n));
    }
  }

  /** A folder batch attempts every file of the folder, in order, whatever
      the earlier imports returned: a failure is logged and the loop goes on. */
  lemma {:induction false} BatchAttemptsEveryFile(b: Batch, p: Parameters, env: Environment, n: nat, files: seq<string>)
    ensures |ImportedSteps(BatchEvents(b, p, env, n, files))| == |files|
    ensures forall k :: 0 <= k < |files| ==>
              ImportedSteps(BatchEvents(b, p, env, n, files))[k] == BatchStep(b, p, env, files[k], k)
    decreases |files|
  {
    if files != [] {
      var init := files[..|files| - 1];
      var last := |files| - 1;
      var head := BatchEvents(b, p, env, n, init);
      var tail := FileEvents(b, p, env, n, files[last], last);
      assert BatchEvents(b, p, env, n, files) == head + tail;
      BatchAttemptsEveryFile(b, p, env, n, init);
      FileEventsSteps(b, p, env, n, files[last], last);
      ImportedStepsAppend(head, tail);
      StepsExtend(b, p, env, files, ImportedSteps(head));
    }
  }

  /** The steps of the first files, then the last file's step. */
  lemma StepsExtend(b: Batch, p: Parameters, env: Environment, files: seq<string>, head: seq<LoadStep>)
    requires files != [] && |head| == |files| - 1
    requires forall k :: 0 <= k < |head| ==> head[k] == BatchStep(b, p, env, files[..|files| - 1][k], k)
    ensures var s := head + [BatchStep(b, p, env, files[|files| - 1], |files| - 1)];
      |s| == |files| && forall k :: 0 <= k < |files| ==> s[k] == BatchStep(b, p, env, files[k], k)
  {
    var s := head + [BatchStep(b, p, env, files[|files| - 1], |files| - 1)];
    forall k | 0 <= k < |files|
      ensures s[k] == BatchStep(b, p, env, files[k], k)
    {
      if k < |head| {
        assert files[..|files| - 1][k] == files[k];
      }
    }
  }

  /** A failed import in a folder batch is reported, and the batch goes on
      to the next file. */
  lemma {:induction false} BatchLogsFailures(b: Batch, p: Parameters, env: Environment, n: nat, files: seq<string>)
    ensures forall k :: 0 <= k < |files| && !env.importer(BatchStep(b, p, env, files[k], k)).ok ==>
              ImportFailed(BatchStep(b, p, env, files[k], k)) in BatchEvents(b, p, env, n, files)
    decreases |files|
  {
    if files != [] {
      var last := |files| - 1;
      var head := BatchEvents(b, p, env, n, files[..last]);
      var tail := FileEvents(b, p, env, n, files[last], last);
      assert BatchEvents(b, p, env, n, files) == head + tail;
      BatchLogsFailures(b, p, env, n, files[..last]);
      FileLogsFailure(b, p, env, n, files[last], last);
      LogsExtend(b, p, env, files, files[..last], head, tail);
    }
  }

  /** The failures logged for the first files, then the last file's. */
  lemma LogsExtend(b: Batch, p: Parameters, env: Environment, files: seq<string>, init: seq<string>,
                   head: seq<Event>, tail: seq<Event>)
    requires files != [] && init == files[..|files| - 1]
    requires forall k :: 0 <= k < |init| && !env.importer(BatchStep(b, p, env, init[k], k)).ok ==>
               ImportFailed(BatchStep(b, p, env, init[k], k)) in head
    requires var k := |files| - 1; !env.importer(BatchStep(b, p, env, files[k], k)).ok ==>
               ImportFailed(BatchStep(b, p, env, files[k], k)) in tail
    ensures forall k :: 0 <= k < |files| && !env.importer(BatchStep(b, p, env, files[k], k)).ok ==>
              ImportFailed(BatchStep(b, p, env, files[k], k)) in head + tail
  {
    forall k | 0 <= k < |files| && !env.importer(BatchStep(b, p, env, files[k], k)).ok
      ensures ImportFailed(BatchStep(b, p, env, files[k], k)) in head + tail
    {
      if k < |init| {
        assert init[k] == files[k];
      }
    }
  }

  lemma FileLogsFailure(b: Batch, p: Parameters, env: Environment, n: nat, file: string, progress: nat)
    ensures !env.importer(BatchStep(b, p, env, file, progress)).ok ==>
      ImportFailed(BatchStep(b, p, env, file, progress)) in FileEvents(b, p, env, n, file, progress)
  {
  }

  /** The kinds of call _loadData may issue. */
  predicate LoadingEvent(ev: Event) {
    ev.SetSkyboxTexture? || ev.Import? || ev.ImportFailed? || ev.AssimpMissing? ||
    ev.CommitTransferFunctionData? || ev.AttachSpikeCache? || ev.SetMaterialColor? ||
    ev.SetVolumeTimestamp? || ev.MergeWorldBounds?
  }

  /** The loader call a folder batch of kind b issues. */
  predicate InBatch(b: Batch, s: LoadStep, p: Parameters, env: Environment) {
    match b
    case MorphologyBatch => s.ImportMorphology?
    case PdbBatch => s.ImportPDB?
    case MeshBatch =>
      s.ImportMesh? && s.quality == MeshQualityFor(p.geometry.geometryQuality) &&
      (s.material.MaterialIndex? <==> p.geometry.colorScheme == NeuronById)
  }

  lemma {:induction false} BatchEventsShape(b: Batch, p: Parameters, env: Environment, n: nat, files: seq<string>)
    ensures forall ev :: ev in BatchEvents(b, p, env, n, files) ==>
              LoadingEvent(ev) && (ev.Import? ==> InBatch(b, ev.step, p, env))
    decreases |files|
  {
    if files != [] {
      var last := |files| - 1;
      var init := BatchEvents(b, p, env, n, files[..last]);
      var tail := FileEvents(b, p, env, n, files[last], last);
      assert BatchEvents(b, p, env, n, files) == init + tail;
      BatchEventsShape(b, p, env, n, files[..last]);
      FileEventsShape(b, p, env, n, files[last], last);
    }
  }

  lemma FileEventsShape(b: Batch, p: Parameters, env: Environment, n: nat, file: string, progress: nat)
    ensures forall ev :: ev in FileEvents(b, p, env, n, file, progress) ==>
              LoadingEvent(ev) && (ev.Import? ==> InBatch(b, ev.step, p, env))
  {
    if b == PdbBatch {
      RecolorHasNoImports(env, n);
    }
  }

  /** The parameter condition under which _loadData makes a loader call. */
  predicate Triggered(s: LoadStep, p: Parameters, env: Environment) {
    var g := p.geometry;
    var cm := p.scene.colorMapFilename;
    match s
    case LoadTransferFunction(f) => f == cm && cm != ""
    case ImportMorphology(_, _) => g.morphologyFolder != ""
    case ImportNESTCircuit(f) => f == g.nestCircuit && f != ""
    case ImportSpikeReport(f) => f == g.nestReport && g.nestCircuit != ""
    case ImportPDB(_) => g.pdbFile != "" || g.pdbFolder != ""
    case ImportMesh(_, q, _) =>
      (g.splashSceneFolder != "" || g.meshFolder != "") && env.hasAssimp && q == MeshQualityFor(g.geometryQuality)
    case ImportSimulationData(c, t, r) =>
      r == g.report && r != "" && c == g.circuitConfiguration && t == g.target
    case ImportCircuit(c, t) =>
      c == g.circuitConfiguration && c != "" && g.loadCacheFile == "" && g.report == "" && t == g.target
    case ImportCircuitWithReport(c, t, r) =>
      c == g.circuitConfiguration && c != "" && g.loadCacheFile == "" && r == g.report && r != "" && t == g.target
    case ImportXYZB(f) => f == g.xyzbFile && f != ""
    case ImportMolecularSystem(c) => c == g.molecularSystemConfig && c != "" && env.hasAssimp
  }

  predicate Permitted(ev: Event, p: Parameters, env: Environment) {
    LoadingEvent(ev) && (ev.Import? ==> Triggered(ev.step, p, env))
  }

  lemma MeshFolderPermitted(p: Parameters, env: Environment, folder: string)
    requires p.geometry.splashSceneFolder != "" || p.geometry.meshFolder != ""
    ensures forall ev :: ev in MeshFolderEvents(p, env, folder) ==> Permitted(ev, p, env)
  {
    if env.hasAssimp {
      BatchEventsShape(MeshBatch, p, env, 0, env.parseFolder(folder, MeshFiles));
    }
  }

  lemma SingleCallsPermitted(p: Parameters, env: Environment, vol: Option<VolumeHandler>)
    ensures forall ev :: ev in EnvironmentMapSegment(p) ==> Permitted(ev, p, env)
    ensures forall ev :: ev in ColorMapSegment(p, env) ==> Permitted(ev, p, env)
    ensures forall ev :: ev in TransferFunctionReload(p, env) ==> Permitted(ev, p, env)
    ensures forall ev :: ev in CircuitSegment(p, env) ==> Permitted(ev, p, env)
    ensures forall ev :: ev in XyzbSegment(p, env) ==> Permitted(ev, p, env)
    ensures forall ev :: ev in MolecularSegment(p, env) ==> Permitted(ev, p, env)
    ensures forall ev :: ev in VolumeSegment(vol, p.volume.elementSpacing) ==> Permitted(ev, p, env)
  {
  }

  lemma SimulationCallsPermitted(p: Parameters, env: Environment)
    ensures forall ev :: ev in NestSegment(p, env) ==> Permitted(ev, p, env)
    ensures forall ev :: ev in ReportSegment(p, env) ==> Permitted(ev, p, env)
  {
    SingleCallsPermitted(p, env, None);
  }

  lemma PdbCallsPermitted(p: Parameters, env: Environment, n: nat)
    ensures forall ev :: ev in PdbFileSegment(p, env, n) ==> Permitted(ev, p, env)
    ensures forall ev :: ev in PdbFolderSegment(p, env, n) ==> Permitted(ev, p, env)
  {
    RecolorHasNoImports(env, n);
    if p.geometry.pdbFolder != "" {
      BatchEventsShape(PdbBatch, p, env, n, env.parseFolder(p.geometry.pdbFolder, PdbFiles));
    }
  }

  lemma FolderCallsPermitted(p: Parameters, env: Environment)
    ensures forall ev :: ev in SplashSegment(p, env) ==> Permitted(ev, p, env)
    ensures forall ev :: ev in MorphologySegment(p, env) ==> Permitted(ev, p, env)
    ensures forall ev :: ev in MeshSegment(p, env) ==> Permitted(ev, p, env)
  {
    var g := p.geometry;
    if g.splashSceneFolder != "" { MeshFolderPermitted(p, env, g.splashSceneFolder); }
    if g.morphologyFolder != "" {
      BatchEventsShape(MorphologyBatch, p, env, 0, env.parseFolder(g.morphologyFolder, MorphologyFiles));
    }
    if g.meshFolder != "" { MeshFolderPermitted(p, env, g.meshFolder); }
  }

  /** A loader runs only when its parameter is given: every call in the
      data-loading sequence is one _loadData is allowed to make. */
  lemma LoadersRunOnlyWhenGiven(p: Parameters, env: Environment, n: nat, vol: Option<VolumeHandler>)
    ensures forall ev :: ev in LoadEvents(p, env, n, vol) ==> Permitted(ev, p, env)
  {
    SingleCallsPermitted(p, env, vol);
    SimulationCallsPermitted(p, env);
    PdbCallsPermitted(p, env, n);
    FolderCallsPermitted(p, env);
  }

  /** Nothing _loadData issues touches a light. */
  lemma LoadingKeepsLights(p: Parameters, env: Environment, n: nat, vol: Option<VolumeHandler>)
    ensures forall ev :: ev in LoadEvents(p, env, n, vol) ==> !TouchesLights(ev)
  {
    LoadersRunOnlyWhenGiven(p, env, n, vol);
  }

  lemma LoadStepsBySegment(p: Parameters, env: Environment, n: nat, vol: Option<VolumeHandler>)
    ensures ImportedSteps(LoadEvents(p, env, n, vol)) ==
      ImportedSteps(EnvironmentMapSegment(p))
      + ImportedSteps(SplashSegment(p, env))
      + ImportedSteps(ColorMapSegment(p, env))
      + ImportedSteps(MorphologySegment(p, env))
      + ImportedSteps(NestSegment(p, env))
      + ImportedSteps(PdbFileSegment(p, env, n))
      + ImportedSteps(PdbFolderSegment(p, env, n))
      + ImportedSteps(MeshSegment(p, env))
      + ImportedSteps(ReportSegment(p, env))
      + ImportedSteps(CircuitSegment(p, env))
      + ImportedSteps(XyzbSegment(p, env))
      + ImportedSteps(MolecularSegment(p, env))
      + ImportedSteps(VolumeSegment(vol, p.volume.elementSpacing))
  {
    var s1 := EnvironmentMapSegment(p);
    var s2 := s1 + SplashSegment(p, env);
    var s3 := s2 + ColorMapSegment(p, env);
    var s4 := s3 + MorphologySegment(p, env);
    var s5 := s4 + NestSegment(p, env);
    var s6 := s5 + PdbFileSegment(p, env, n);
    var s7 := s6 + PdbFolderSegment(p, env, n);
    var s8 := s7 + MeshSegment(p, env);
    var s9 := s8 + ReportSegment(p, env);
    var s10 := s9 + CircuitSegment(p, env);
    var s11 := s10 + XyzbSegment(p, env);
    var s12 := s11 + MolecularSegment(p, env);
    ImportedStepsAppend(s1, SplashSegment(p, env));
    ImportedStepsAppend(s2, ColorMapSegment(p, env));
    ImportedStepsAppend(s3, MorphologySegment(p, env));
    ImportedStepsAppend(s4, NestSegment(p, env));
    ImportedStepsAppend(s5, PdbFileSegment(p, env, n));
    ImportedStepsAppend(s6, PdbFolderSegment(p, env, n));
    ImportedStepsAppend(s7, MeshSegment(p, env));
    ImportedStepsAppend(s8, ReportSegment(p, env));
    ImportedStepsAppend(s9, CircuitSegment(p, env));
    ImportedStepsAppend(s10, XyzbSegment(p, env));
    ImportedStepsAppend(s11, MolecularSegment(p, env));
    ImportedStepsAppend(s12, VolumeSegment(vol, p.volume.elementSpacing));
  }

  /** Whatever a segment imports is imported by the whole load sequence. */
  lemma SegmentStepsIncluded(p: Parameters, env: Environment, n: nat, vol: Option<VolumeHandler>, x: LoadStep)
    ensures var steps := ImportedSteps(LoadEvents(p, env, n, vol));
      && (x in ImportedSteps(SplashSegment(p, env)) ==> x in steps)
      && (x in ImportedSteps(ColorMapSegment(p, env)) ==> x in steps)
      && (x in ImportedSteps(MorphologySegment(p, env)) ==> x in steps)
      && (x in ImportedSteps(NestSegment(p, env)) ==> x in steps)
      && (x in ImportedSteps(PdbFileSegment(p, env, n)) ==> x in steps)
      && (x in ImportedSteps(PdbFolderSegment(p, env, n)) ==> x in steps)
      && (x in ImportedSteps(MeshSegment(p, env)) ==> x in steps)
      && (x in ImportedSteps(ReportSegment(p, env)) ==> x in steps)
      && (x in ImportedSteps(CircuitSegment(p, env)) ==> x in steps)
      && (x in ImportedSteps(XyzbSegment(p, env)) ==> x in steps)
      && (x in ImportedSteps(MolecularSegment(p, env)) ==> x in steps)
  {
    LoadStepsBySegment(p, env, n, vol);
  }

  lemma ColorMapStepsGiven(p: Parameters, env: Environment)
    ensures CommitTransferFunctionData in ColorMapSegment(p, env)
    ensures p.scene.colorMapFilename != "" ==>
      LoadTransferFunction(p.scene.colorMapFilename) in ImportedSteps(ColorMapSegment(p, env))
  {
    var cm := p.scene.colorMapFilename;
    if cm != "" {
      ImportCallSteps(env, LoadTransferFunction(cm), false);
      ImportedStepsAppend(ImportCall(env, LoadTransferFunction(cm), false), [CommitTransferFunctionData]);
    }
  }

  lemma NestStepsGiven(p: Parameters, env: Environment)
    ensures var g := p.geometry; g.nestCircuit != "" ==>
      ImportNESTCircuit(g.nestCircuit) in ImportedSteps(NestSegment(p, env)) &&
      ImportSpikeReport(g.nestReport) in ImportedSteps(NestSegment(p, env))
  {
    var g := p.geometry;
    if g.nestCircuit != "" {
      var a := ImportCall(env, ImportNESTCircuit(g.nestCircuit), false);
      var b := ImportCall(env, ImportSpikeReport(g.nestReport), false);
      var c := if g.nestCacheFile != "" then [AttachSpikeCache(g.nestCacheFile)] else [];
      ImportCallSteps(env, ImportNESTCircuit(g.nestCircuit), false);
      ImportCallSteps(env, ImportSpikeReport(g.nestReport), false);
      ImportedStepsAppend(a, b);
      ImportedStepsAppend(a + b, c);
      ImportedStepsAppend(a + b + c, TransferFunctionReload(p, env));
    }
  }

  lemma PdbAndReportStepsGiven(p: Parameters, env: Environment, n: nat)
    ensures p.geometry.pdbFile != "" ==> ImportPDB(p.geometry.pdbFile) in ImportedSteps(PdbFileSegment(p, env, n))
    ensures p.geometry.report != "" ==> ReportStep(p) in ImportedSteps(ReportSegment(p, env))
  {
    var g := p.geometry;
    if g.pdbFile != "" {
      ImportCallSteps(env, ImportPDB(g.pdbFile), true);
      ImportedStepsAppend(ImportCall(env, ImportPDB(g.pdbFile), true), RecolorEvents(env, n));
    }
    if g.report != "" {
      ImportCallSteps(env, ReportStep(p), false);
      ImportedStepsAppend(ImportCall(env, ReportStep(p), false),
        if env.importer(ReportStep(p)).ok then TransferFunctionReload(p, env) else []);
    }
  }

  lemma SingleStepsGiven(p: Parameters, env: Environment)
    ensures var g := p.geometry;
      && (g.circuitConfiguration != "" && g.loadCacheFile == "" ==> CircuitStep(p) in ImportedSteps(CircuitSegment(p, env)))
      && (g.xyzbFile != "" ==> ImportXYZB(g.xyzbFile) in ImportedSteps(XyzbSegment(p, env)))
      && (g.molecularSystemConfig != "" && env.hasAssimp ==>
            ImportMolecularSystem(g.molecularSystemConfig) in ImportedSteps(MolecularSegment(p, env)))
  {
    var g := p.geometry;
    ImportCallSteps(env, CircuitStep(p), false);
    ImportCallSteps(env, ImportXYZB(g.xyzbFile), true);
    ImportCallSteps(env, ImportMolecularSystem(g.molecularSystemConfig), false);
  }

  /** A loader runs when its parameter is given (and, for the circuit
      configuration, no cache file is requested); the transfer-function data
      is committed in every case. */
  lemma LoadersRunWhenGiven(p: Parameters, env: Environment, n: nat, vol: Option<VolumeHandler>)
    ensures CommitTransferFunctionData in LoadEvents(p, env, n, vol)
    ensures p.scene.environmentMap != "" ==> SetSkyboxTexture(p.scene.environmentMap) in LoadEvents(p, env, n, vol)
    ensures var steps := ImportedSteps(LoadEvents(p, env, n, vol)); var g := p.geometry;
      && (p.scene.colorMapFilename != "" ==> LoadTransferFunction(p.scene.colorMapFilename) in steps)
      && (g.nestCircuit != "" ==> ImportNESTCircuit(g.nestCircuit) in steps && ImportSpikeReport(g.nestReport) in steps)
      && (g.pdbFile != "" ==> ImportPDB(g.pdbFile) in steps)
      && (g.report != "" ==> ReportStep(p) in steps)
      && (g.circuitConfiguration != "" && g.loadCacheFile == "" ==> CircuitStep(p) in steps)
      && (g.xyzbFile != "" ==> ImportXYZB(g.xyzbFile) in steps)
      && (g.molecularSystemConfig != "" && env.hasAssimp ==> ImportMolecularSystem(g.molecularSystemConfig) in steps)
      && (g.splashSceneFolder != "" && env.hasAssimp ==>
            var files := env.parseFolder(g.splashSceneFolder, MeshFiles);
            forall k :: 0 <= k < |files| ==> MeshStep(p, env, files[k], k) in steps)
  {
    var g := p.geometry;
    SplashLoadsEveryFile(p, env, n, vol);
    ColorMapStepsGiven(p, env);
    NestStepsGiven(p, env);
    PdbAndReportStepsGiven(p, env, n);
    SingleStepsGiven(p, env);
    SegmentStepsIncluded(p, env, n, vol, LoadTransferFunction(p.scene.colorMapFilename));
    SegmentStepsIncluded(p, env, n, vol, ImportNESTCircuit(g.nestCircuit));
    SegmentStepsIncluded(p, env, n, vol, ImportSpikeReport(g.nestReport));
    SegmentStepsIncluded(p, env, n, vol, ImportPDB(g.pdbFile));
    SegmentStepsIncluded(p, env, n, vol, ReportStep(p));
    SegmentStepsIncluded(p, env, n, vol, CircuitStep(p));
    SegmentStepsIncluded(p, env, n, vol, ImportXYZB(g.xyzbFile));
    SegmentStepsIncluded(p, env, n, vol, ImportMolecularSystem(g.molecularSystemConfig));
  }

  /** With the mesh library, every file of the splash scene folder is imported. */
  lemma SplashLoadsEveryFile(p: Parameters, env: Environment, n: nat, vol: Option<VolumeHandler>)
    ensures var g := p.geometry; g.splashSceneFolder != "" && env.hasAssimp ==>
      var files := env.parseFolder(g.splashSceneFolder, MeshFiles);
      forall k :: 0 <= k < |files| ==> MeshStep(p, env, files[k], k) in ImportedSteps(LoadEvents(p, env, n, vol))
  {
    BatchAttemptsEveryFile(MeshBatch, p, env, 0, env.parseFolder(p.geometry.splashSceneFolder, MeshFiles));
    forall x: LoadStep {
      SegmentStepsIncluded(p, env, n, vol, x);
    }
  }

  /** Every file of a given morphology, PDB or mesh folder is attempted. */
  lemma FoldersLoadEveryFile(p: Parameters, env: Environment, n: nat, vol: Option<VolumeHandler>)
    ensures var steps := ImportedSteps(LoadEvents(p, env, n, vol)); var g := p.geometry;
      && (g.morphologyFolder != "" ==>
            var files := env.parseFolder(g.morphologyFolder, MorphologyFiles);
            forall k :: 0 <= k < |files| ==> ImportMorphology(files[k], k) in steps)
      && (g.pdbFolder != "" ==>
            var files := env.parseFolder(g.pdbFolder, PdbFiles);
            forall k :: 0 <= k < |files| ==> ImportPDB(PdbName(p, files[k])) in steps)
      && (g.meshFolder != "" && env.hasAssimp ==>
            var files := env.parseFolder(g.meshFolder, MeshFiles);
            forall k :: 0 <= k < |files| ==> MeshStep(p, env, files[k], k) in steps)
  {
    var g := p.geometry;
    BatchAttemptsEveryFile(MorphologyBatch, p, env, 0, env.parseFolder(g.morphologyFolder, MorphologyFiles));
    BatchAttemptsEveryFile(PdbBatch, p, env, n, env.parseFolder(g.pdbFolder, PdbFiles));
    BatchAttemptsEveryFile(MeshBatch, p, env, 0, env.parseFolder(g.meshFolder, MeshFiles));
    forall x: LoadStep {
      SegmentStepsIncluded(p, env, n, vol, x);
    }
  }

  /** The three calls that close loading when a volume handler exists. */
  lemma VolumeSegmentEffect(e: Engine, a: Vec3, b: Vec3)
    requires e.scene.volume.Some?
    ensures var r := Run(e, [SetVolumeTimestamp(0.0), MergeWorldBounds(a), MergeWorldBounds(b)]);
      Contains(r.scene.bounds, a) && Contains(r.scene.bounds, b) &&
      r.scene.volume.Some? && r.scene.volume.value.timestamp == 0.0
  {
    var t := SetVolumeTimestamp(0.0);
    RunThree(e, t, MergeWorldBounds(a), MergeWorldBounds(b));
    var r1 := Step(e, t);
    var r2 := Step(r1, MergeWorldBounds(a));
    assert Contains(r2.scene.bounds, a);
    assert r2.scene.volume == r1.scene.volume;
  }

  /** With a volume handler, loading ends by resetting its timestamp and
      merging the origin and the far corner into the world bounds, so both
      lie inside the bounds afterwards. */
  lemma VolumeInsideWorldBounds(e: Engine, p: Parameters, env: Environment)
    requires e.scene.volume.Some?
    ensures var r := Run(e, LoadEvents(p, env, |e.scene.materials|, e.scene.volume));
      && Contains(r.scene.bounds, Origin)
      && Contains(r.scene.bounds, VolumeFarCorner(e.scene.volume.value, p.volume.elementSpacing))
      && r.scene.volume.Some? && r.scene.volume.value.timestamp == 0.0
  {
    var n := |e.scene.materials|;
    var head := EnvironmentMapSegment(p) + SplashSegment(p, env) + ColorMapSegment(p, env)
      + MorphologySegment(p, env) + NestSegment(p, env) + PdbFileSegment(p, env, n)
      + PdbFolderSegment(p, env, n) + MeshSegment(p, env) + ReportSegment(p, env)
      + CircuitSegment(p, env) + XyzbSegment(p, env) + MolecularSegment(p, env);
    var tail := VolumeSegment(e.scene.volume, p.volume.elementSpacing);
    assert LoadEvents(p, env, n, e.scene.volume) == head + tail;
    RunAppend(e, head, tail);
    var e1 := Run(e, head);
    assert VolumeFootprint(e1.scene.volume) == VolumeFootprint(e.scene.volume);
    VolumeSegmentEffect(e1, Origin, VolumeFarCorner(e.scene.volume.value, p.volume.elementSpacing));
  }

  /** _loadPDBFile's loop gives material i the loader's colour for i. */
  lemma {:induction false} RecolorSetsEveryMaterial(e: Engine, env: Environment, m: nat)
    requires m <= |e.scene.materials|
    ensures var r := Run(e, RecolorEvents(env, m)).scene.materials;
      |r| == |e.scene.materials| &&
      (forall i :: 0 <= i < m ==> r[i] == e.scene.materials[i].(color := env.proteinKd(i))) &&
      (forall i :: m <= i < |r| ==> r[i] == e.scene.materials[i])
    decreases m
  {
    if m > 0 {
      RecolorSetsEveryMaterial(e, env, m - 1);
      var prev := Run(e, RecolorEvents(env, m - 1));
      RunSnoc(e, RecolorEvents(env, m - 1), SetMaterialColor(m - 1, env.proteinKd(m - 1)));
      StepSetsMaterial(prev, m - 1, env.proteinKd(m - 1));
    }
  }
}
