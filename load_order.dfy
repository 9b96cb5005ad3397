/** The order in which _loadData calls its loaders, stated independently of
    how LoadEvents is assembled: every loader call kind has a rank, and the
    ranks never decrease along the loader calls of a load. */
module LoadOrder {
  import opened Wrappers
  import opened Geometry
  import opened Params
  import opened Loaders
  import opened Engines
  import opened DataLoading
  import opened LoadingProperties

  /** The position of a loader in _loadData: morphologies, NEST circuit and
      its spike report, PDB files and folders, meshes, compartment report,
      circuit configuration, XYZB file, molecular system. The colour map
      and the splash meshes are unranked: the colour map is loaded again
      after a simulation is attached, and the splash scene uses the same
      mesh call as the mesh folder, so with a splash folder meshes are
      unranked too. */
  function Rank(s: LoadStep, p: Parameters): Option<nat> {
    match s
    case LoadTransferFunction(_) => None
    case ImportMorphology(_, _) => Some(1)
    case ImportNESTCircuit(_) => Some(2)
    case ImportSpikeReport(_) => Some(2)
    case ImportPDB(_) => Some(3)
    case ImportMesh(_, _, _) => if p.geometry.splashSceneFolder == "" then Some(4) else None
    case ImportSimulationData(_, _, _) => Some(5)
    case ImportCircuit(_, _) => Some(6)
    case ImportCircuitWithReport(_, _, _) => Some(6)
    case ImportXYZB(_) => Some(7)
    case ImportMolecularSystem(_) => Some(8)
  }

  predicate RankIs(s: LoadStep, p: Parameters, k: nat) {
    Rank(s, p).None? || Rank(s, p).value == k
  }

  predicate RankAtMost(s: LoadStep, p: Parameters, k: nat) {
    Rank(s, p).None? || Rank(s, p).value <= k
  }

  /** Every ranked call of `steps` has rank k. */
  predicate AllRanked(steps: seq<LoadStep>, p: Parameters, k: nat) {
    forall i :: 0 <= i < |steps| ==> RankIs(steps[i], p, k)
  }

  predicate AllAtMost(steps: seq<LoadStep>, p: Parameters, k: nat) {
    forall i :: 0 <= i < |steps| ==> RankAtMost(steps[i], p, k)
  }

  /** Between any two ranked calls, the earlier has the lower or equal rank. */
  predicate InRankOrder(steps: seq<LoadStep>, p: Parameters) {
    forall i, j :: 0 <= i < j < |steps| && Rank(steps[i], p).Some? && Rank(steps[j], p).Some? ==>
      Rank(steps[i], p).value <= Rank(steps[j], p).value
  }

  /** Appending a run of rank-k calls to calls ranked at most k keeps the order. */
  lemma ExtendOrder(acc: seq<LoadStep>, seg: seq<LoadStep>, p: Parameters, k: nat)
    requires InRankOrder(acc, p) && AllAtMost(acc, p, k) && AllRanked(seg, p, k)
    ensures InRankOrder(acc + seg, p) && AllAtMost(acc + seg, p, k)
  {
    var s := acc + seg;
    forall i, j | 0 <= i < j < |s| && Rank(s[i], p).Some? && Rank(s[j], p).Some?
      ensures Rank(s[i], p).value <= Rank(s[j], p).value
    {
      if j < |acc| {
        assert s[i] == acc[i] && s[j] == acc[j];
      } else if i < |acc| {
        assert s[i] == acc[i] && s[j] == seg[j - |acc|];
        assert RankAtMost(acc[i], p, k) && RankIs(seg[j - |acc|], p, k);
      } else {
        assert s[i] == seg[i - |acc|] && s[j] == seg[j - |acc|];
        assert RankIs(seg[i - |acc|], p, k) && RankIs(seg[j - |acc|], p, k);
      }
    }
    forall i | 0 <= i < |s|
      ensures RankAtMost(s[i], p, k)
    {
      if i < |acc| {
        assert s[i] == acc[i];
      } else {
        assert s[i] == seg[i - |acc|];
        assert RankIs(seg[i - |acc|], p, k);
      }
    }
  }

  /** A ranked run below k is ranked at most any larger bound. */
  lemma Loosen(steps: seq<LoadStep>, p: Parameters, k: nat, m: nat)
    requires AllAtMost(steps, p, k) && k <= m
    ensures AllAtMost(steps, p, m)
  {
    forall i | 0 <= i < |steps|
      ensures RankAtMost(steps[i], p, m)
    {
      assert RankAtMost(steps[i], p, k);
    }
  }

  lemma NoImport(ev: Event)
    requires !ev.Import?
    ensures ImportedSteps([ev]) == []
  {
    assert [ev][..0] == [];
  }

  lemma ReloadSteps(p: Parameters, env: Environment)
    ensures AllRanked(ImportedSteps(TransferFunctionReload(p, env)), p, 0)
  {
    var cm := p.scene.colorMapFilename;
    if cm != "" {
      ImportCallSteps(env, LoadTransferFunction(cm), false);
      NoImport(CommitTransferFunctionData);
      ImportedStepsAppend(ImportCall(env, LoadTransferFunction(cm), false), [CommitTransferFunctionData]);
    }
  }

  /** The rank of a batch's call and the index of every call in it. */
  function BatchRank(b: Batch): nat {
    match b
    case MorphologyBatch => 1
    case PdbBatch => 3
    case MeshBatch => 4
  }

  lemma BatchRanked(b: Batch, p: Parameters, env: Environment, n: nat, files: seq<string>)
    ensures AllRanked(ImportedSteps(BatchEvents(b, p, env, n, files)), p, BatchRank(b))
  {
    BatchAttemptsEveryFile(b, p, env, n, files);
    var steps := ImportedSteps(BatchEvents(b, p, env, n, files));
    forall i | 0 <= i < |steps|
      ensures RankIs(steps[i], p, BatchRank(b))
    {
      assert steps[i] == BatchStep(b, p, env, files[i], i);
    }
  }

  lemma MeshFolderRanked(p: Parameters, env: Environment, folder: string)
    ensures AllRanked(ImportedSteps(MeshFolderEvents(p, env, folder)), p, 4)
  {
    if env.hasAssimp {
      BatchRanked(MeshBatch, p, env, 0, env.parseFolder(folder, MeshFiles));
    } else {
      NoImport(AssimpMissing(folder));
    }
  }

  lemma SetupRanked(p: Parameters, env: Environment)
    ensures AllRanked(ImportedSteps(EnvironmentMapSegment(p)), p, 0)
    ensures AllRanked(ImportedSteps(SplashSegment(p, env)), p, 0)
    ensures AllRanked(ImportedSteps(ColorMapSegment(p, env)), p, 0)
  {
    if p.scene.environmentMap != "" {
      NoImport(SetSkyboxTexture(p.scene.environmentMap));
    }
    SplashRanked(p, env);
    ColorMapRanked(p, env);
  }

  lemma SplashRanked(p: Parameters, env: Environment)
    ensures AllRanked(ImportedSteps(SplashSegment(p, env)), p, 0)
  {
    var splash := p.geometry.splashSceneFolder;
    if splash != "" {
      MeshFolderRanked(p, env, splash);
      var steps := ImportedSteps(SplashSegment(p, env));
      forall i | 0 <= i < |steps|
        ensures RankIs(steps[i], p, 0)
      {
        assert RankIs(steps[i], p, 4);
      }
    }
  }

  lemma ColorMapRanked(p: Parameters, env: Environment)
    ensures AllRanked(ImportedSteps(ColorMapSegment(p, env)), p, 0)
  {
    var cm := p.scene.colorMapFilename;
    var head := if cm != "" then ImportCall(env, LoadTransferFunction(cm), false) else [];
    if cm != "" {
      ImportCallSteps(env, LoadTransferFunction(cm), false);
    } else {
      assert head == [];
    }
    NoImport(CommitTransferFunctionData);
    ImportedStepsAppend(head, [CommitTransferFunctionData]);
  }

  lemma NestRanked(p: Parameters, env: Environment)
    ensures AllRanked(ImportedSteps(NestSegment(p, env)), p, 2)
  {
    var g := p.geometry;
    if g.nestCircuit != "" {
      var a := ImportCall(env, ImportNESTCircuit(g.nestCircuit), false);
      var b := ImportCall(env, ImportSpikeReport(g.nestReport), false);
      var c: seq<Event> := if g.nestCacheFile != "" then [AttachSpikeCache(g.nestCacheFile)] else [];
      var r := TransferFunctionReload(p, env);
      ImportCallSteps(env, ImportNESTCircuit(g.nestCircuit), false);
      ImportCallSteps(env, ImportSpikeReport(g.nestReport), false);
      if g.nestCacheFile != "" {
        NoImport(AttachSpikeCache(g.nestCacheFile));
      } else {
        assert ImportedSteps(c) == [];
      }
      ReloadSteps(p, env);
      ImportedStepsAppend(a, b);
      ImportedStepsAppend(a + b, c);
      ImportedStepsAppend(a + b + c, r);
      var rs := ImportedSteps(r);
      var steps := ImportedSteps(a) + ImportedSteps(b) + ImportedSteps(c) + rs;
      forall i | 0 <= i < |steps|
        ensures RankIs(steps[i], p, 2)
      {
        if i >= 2 {
          assert steps[i] == rs[i - 2];
          assert RankIs(rs[i - 2], p, 0);
        }
      }
    }
  }

  lemma PdbRanked(p: Parameters, env: Environment, n: nat)
    ensures AllRanked(ImportedSteps(PdbFileSegment(p, env, n)), p, 3)
    ensures AllRanked(ImportedSteps(PdbFolderSegment(p, env, n)), p, 3)
  {
    PdbFileRanked(p, env, n);
    if p.geometry.pdbFolder != "" {
      BatchRanked(PdbBatch, p, env, n, env.parseFolder(p.geometry.pdbFolder, PdbFiles));
    }
  }

  lemma PdbFileRanked(p: Parameters, env: Environment, n: nat)
    ensures AllRanked(ImportedSteps(PdbFileSegment(p, env, n)), p, 3)
  {
    var file := p.geometry.pdbFile;
    if file != "" {
      var head := ImportCall(env, ImportPDB(file), true);
      assert PdbName(p, file) == file;
      assert PdbFileSegment(p, env, n) == head + RecolorEvents(env, n);
      ImportCallSteps(env, ImportPDB(file), true);
      RecolorHasNoImports(env, n);
      ImportedStepsAppend(head, RecolorEvents(env, n));
      assert ImportedSteps(PdbFileSegment(p, env, n)) == [ImportPDB(file)];
    }
  }

  lemma MorphologyAndMeshRanked(p: Parameters, env: Environment)
    ensures AllRanked(ImportedSteps(MorphologySegment(p, env)), p, 1)
    ensures AllRanked(ImportedSteps(MeshSegment(p, env)), p, 4)
  {
    var g := p.geometry;
    if g.morphologyFolder != "" {
      BatchRanked(MorphologyBatch, p, env, 0, env.parseFolder(g.morphologyFolder, MorphologyFiles));
    }
    if g.meshFolder != "" {
      MeshFolderRanked(p, env, g.meshFolder);
    }
  }

  lemma ReportRanked(p: Parameters, env: Environment)
    ensures AllRanked(ImportedSteps(ReportSegment(p, env)), p, 5)
  {
    if p.geometry.report != "" {
      var a := ImportCall(env, ReportStep(p), false);
      var r := if env.importer(ReportStep(p)).ok then TransferFunctionReload(p, env) else [];
      ImportCallSteps(env, ReportStep(p), false);
      ReloadSteps(p, env);
      ImportedStepsAppend(a, r);
      var rs := ImportedSteps(r);
      var steps := [ReportStep(p)] + rs;
      forall i | 0 <= i < |steps|
        ensures RankIs(steps[i], p, 5)
      {
        if i >= 1 {
          assert steps[i] == rs[i - 1];
          assert RankIs(rs[i - 1], p, 0);
        }
      }
    }
  }

  lemma TailRanked(p: Parameters, env: Environment, vol: Option<VolumeHandler>)
    ensures AllRanked(ImportedSteps(CircuitSegment(p, env)), p, 6)
    ensures AllRanked(ImportedSteps(XyzbSegment(p, env)), p, 7)
    ensures AllRanked(ImportedSteps(MolecularSegment(p, env)), p, 8)
    ensures AllRanked(ImportedSteps(VolumeSegment(vol, p.volume.elementSpacing)), p, 8)
  {
    var g := p.geometry;
    ImportCallSteps(env, CircuitStep(p), false);
    ImportCallSteps(env, ImportXYZB(g.xyzbFile), true);
    ImportCallSteps(env, ImportMolecularSystem(g.molecularSystemConfig), false);
    NoImport(AssimpMissing("molecular meshes"));
    var vs := VolumeSegment(vol, p.volume.elementSpacing);
    if vol.Some? {
      var far := VolumeFarCorner(vol.value, p.volume.elementSpacing);
      NoImport(SetVolumeTimestamp(0.0));
      NoImport(MergeWorldBounds(Origin));
      NoImport(MergeWorldBounds(far));
      ImportedStepsAppend([SetVolumeTimestamp(0.0)], [MergeWorldBounds(Origin)]);
      assert vs == [SetVolumeTimestamp(0.0), MergeWorldBounds(Origin)] + [MergeWorldBounds(far)];
      ImportedStepsAppend([SetVolumeTimestamp(0.0), MergeWorldBounds(Origin)], [MergeWorldBounds(far)]);
    }
  }

  /** The first six loader segments, in order, ranked at most 3. */
  lemma HeadInOrder(p: Parameters, env: Environment, n: nat)
    ensures var acc := ImportedSteps(EnvironmentMapSegment(p)) + ImportedSteps(SplashSegment(p, env))
                     + ImportedSteps(ColorMapSegment(p, env)) + ImportedSteps(MorphologySegment(p, env))
                     + ImportedSteps(NestSegment(p, env)) + ImportedSteps(PdbFileSegment(p, env, n));
      InRankOrder(acc, p) && AllAtMost(acc, p, 3)
  {
    SetupRanked(p, env);
    MorphologyAndMeshRanked(p, env);
    NestRanked(p, env);
    PdbRanked(p, env, n);
    var a1 := ImportedSteps(EnvironmentMapSegment(p));
    var a2 := a1 + ImportedSteps(SplashSegment(p, env));
    var a3 := a2 + ImportedSteps(ColorMapSegment(p, env));
    ExtendOrder([], a1, p, 0);
    assert [] + a1 == a1;
    ExtendOrder(a1, ImportedSteps(SplashSegment(p, env)), p, 0);
    ExtendOrder(a2, ImportedSteps(ColorMapSegment(p, env)), p, 0);
    Loosen(a3, p, 0, 1);
    var a4 := a3 + ImportedSteps(MorphologySegment(p, env));
    ExtendOrder(a3, ImportedSteps(MorphologySegment(p, env)), p, 1);
    Loosen(a4, p, 1, 2);
    var a5 := a4 + ImportedSteps(NestSegment(p, env));
    ExtendOrder(a4, ImportedSteps(NestSegment(p, env)), p, 2);
    Loosen(a5, p, 2, 3);
    ExtendOrder(a5, ImportedSteps(PdbFileSegment(p, env, n)), p, 3);
  }

  /** Appending the remaining segments to calls in order and ranked at most 3. */
  lemma RestInOrder(acc: seq<LoadStep>, p: Parameters, env: Environment, n: nat, vol: Option<VolumeHandler>)
    requires InRankOrder(acc, p) && AllAtMost(acc, p, 3)
    ensures var all := acc + ImportedSteps(PdbFolderSegment(p, env, n)) + ImportedSteps(MeshSegment(p, env))
                     + ImportedSteps(ReportSegment(p, env)) + ImportedSteps(CircuitSegment(p, env))
                     + ImportedSteps(XyzbSegment(p, env)) + ImportedSteps(MolecularSegment(p, env))
                     + ImportedSteps(VolumeSegment(vol, p.volume.elementSpacing));
      InRankOrder(all, p)
  {
    PdbRanked(p, env, n);
    MorphologyAndMeshRanked(p, env);
    ReportRanked(p, env);
    TailRanked(p, env, vol);
    var b1 := acc + ImportedSteps(PdbFolderSegment(p, env, n));
    ExtendOrder(acc, ImportedSteps(PdbFolderSegment(p, env, n)), p, 3);
    Loosen(b1, p, 3, 4);
    var b2 := b1 + ImportedSteps(MeshSegment(p, env));
    ExtendOrder(b1, ImportedSteps(MeshSegment(p, env)), p, 4);
    Loosen(b2, p, 4, 5);
    var b3 := b2 + ImportedSteps(ReportSegment(p, env));
    ExtendOrder(b2, ImportedSteps(ReportSegment(p, env)), p, 5);
    Loosen(b3, p, 5, 6);
    var b4 := b3 + ImportedSteps(CircuitSegment(p, env));
    ExtendOrder(b3, ImportedSteps(CircuitSegment(p, env)), p, 6);
    Loosen(b4, p, 6, 7);
    var b5 := b4 + ImportedSteps(XyzbSegment(p, env));
    ExtendOrder(b4, ImportedSteps(XyzbSegment(p, env)), p, 7);
    Loosen(b5, p, 7, 8);
    var b6 := b5 + ImportedSteps(MolecularSegment(p, env));
    ExtendOrder(b5, ImportedSteps(MolecularSegment(p, env)), p, 8);
    ExtendOrder(b6, ImportedSteps(VolumeSegment(vol, p.volume.elementSpacing)), p, 8);
  }

  /** _loadData calls its loaders in the fixed order: morphologies, NEST
      circuit and spike report, PDB file then folder, meshes (when no splash
      scene is given), compartment report, circuit, XYZB, molecular system. */
  lemma LoadersInFixedOrder(p: Parameters, env: Environment, n: nat, vol: Option<VolumeHandler>)
    ensures var steps := ImportedSteps(LoadEvents(p, env, n, vol));
      forall i, j :: 0 <= i < j < |steps| && Rank(steps[i], p).Some? && Rank(steps[j], p).Some? ==>
        Rank(steps[i], p).value <= Rank(steps[j], p).value
  {
    LoadStepsBySegment(p, env, n, vol);
    HeadInOrder(p, env, n);
    var acc := ImportedSteps(EnvironmentMapSegment(p)) + ImportedSteps(SplashSegment(p, env))
             + ImportedSteps(ColorMapSegment(p, env)) + ImportedSteps(MorphologySegment(p, env))
             + ImportedSteps(NestSegment(p, env)) + ImportedSteps(PdbFileSegment(p, env, n));
    RestInOrder(acc, p, env, n, vol);
  }
}
