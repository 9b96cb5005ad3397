/** What Brayns::Impl::_loadData and its _load* helpers issue, as a pure
    description: the sequence of calls (LoadEvents) for a given parameter
    state and environment, with the properties of that sequence. */
module DataLoading {
  import opened Wrappers
  import opened Geometry
  import opened Params
  import opened Loaders
  import opened Engines

  /** NB_MAX_MATERIALS and NB_SYSTEM_MATERIALS: the system materials occupy
      the last slots of the material table. */
  datatype Layout = Layout(maxMaterials: nat, systemMaterials: nat)
  type MaterialLayout = l: Layout | l.systemMaterials < l.maxMaterials witness Layout(1, 0)

  /** The collaborators the orchestrator calls into: the engine factory's
      known names, the loaders, the file system, the optional mesh library,
      the constants of the default sun light and what a fresh backend scene
      and camera hold. */
  datatype Environment = Environment(
    supportedEngines: set<string>,
    importer: LoadStep -> LoaderResult,
    parseFolder: (string, FileKind) -> seq<string>,
    hasAssimp: bool,
    proteinKd: nat -> Vec3,
    layout: MaterialLayout,
    sunDirection: Vec3,
    sunColor: Vec3,
    sunIntensity: real,
    initialMaterials: seq<Material>,
    initialCamera: Camera,
    volume: Option<VolumeHandler>,
    defaultCamera: Box -> Camera)

  /** The default DirectionalLight created with every engine. */
  function SunLight(env: Environment): (l: Light)
    ensures l.directional
  {
    Light(true, env.sunDirection, env.sunColor, env.sunIntensity)
  }

  /** Material of the k-th mesh of a folder. With the neuron-by-id colour
      scheme meshes cycle through the non-system materials; otherwise no
      material is imposed. */
  function MeshMaterial(progress: nat, scheme: ColorScheme, layout: MaterialLayout): (m: MaterialChoice)
    ensures m.MaterialIndex? <==> scheme == NeuronById
    ensures m.MaterialIndex? ==> m.index < layout.maxMaterials - layout.systemMaterials
    ensures m.MaterialIndex? && progress < layout.maxMaterials - layout.systemMaterials ==> m.index == progress
  {
    if scheme == NeuronById then
      MaterialIndex(progress % (layout.maxMaterials - layout.systemMaterials))
    else NoMaterial
  }

  /** Mesh materials repeat with the period of the non-system materials. */
  lemma MeshMaterialCycles(progress: nat, scheme: ColorScheme, layout: MaterialLayout)
    ensures MeshMaterial(progress + (layout.maxMaterials - layout.systemMaterials), scheme, layout)
         == MeshMaterial(progress, scheme, layout)
  {
    var d := layout.maxMaterials - layout.systemMaterials;
    ModShift(progress, d);
  }

  lemma ModShift(k: nat, d: nat)
    requires d > 0
    ensures (k + d) % d == k % d
  {
    var q, r := k / d, k % d;
    var q', r' := (k + d) / d, (k + d) % d;
    DivMod(k, d);
    DivMod(k + d, d);
    var x := q' - q - 1;
    Distribute(d, q', q + 1);
    assert d * x == r - r';
    ProductBound(d, x);
  }

  lemma DivMod(a: nat, d: nat)
    requires d > 0
    ensures a == d * (a / d) + a % d && 0 <= a % d < d
  {
  }

  lemma Distribute(d: int, a: int, b: int)
    ensures d * a - d * b == d * (a - b)
  {
  }

  lemma ProductBound(d: int, x: int)
    requires d > 0 && -d < d * x < d
    ensures x == 0
  {
  }

  /** Geometry quality to mesh quality: medium and high carry over, anything
      else is low. */
  function MeshQualityFor(q: GeometryQuality): (m: MeshQuality)
    ensures m == MeshMedium <==> q == Medium
    ensures m == MeshHigh <==> q == High
  {
    match q
    case Medium => MeshMedium
    case High => MeshHigh
    case _ => MeshLow
  }

  /** One loader call: it is issued, and when `logged` a failure is reported
      (BRAYNS_ERROR) without anything else happening. */
  function ImportCall(env: Environment, step: LoadStep, logged: bool): seq<Event> {
    var r := env.importer(step);
    [Import(step, r)] + (if logged && !r.ok then [ImportFailed(step)] else [])
  }

  /** The loop at the end of _loadPDBFile: every material is recoloured. */
  function RecolorEvents(env: Environment, n: nat): seq<Event>
    decreases n
  {
    if n == 0 then [] else RecolorEvents(env, n - 1) + [SetMaterialColor(n - 1, env.proteinKd(n - 1))]
  }

  /** _loadPDBFile: an empty name stands for the pdb-file parameter. */
  function PdbName(p: Parameters, file: string): string {
    if file == "" then p.geometry.pdbFile else file
  }

  function PdbFileEvents(p: Parameters, env: Environment, file: string, n: nat): seq<Event> {
    ImportCall(env, ImportPDB(PdbName(p, file)), true) + RecolorEvents(env, n)
  }

  function MeshStep(p: Parameters, env: Environment, file: string, progress: nat): LoadStep {
    ImportMesh(file, MeshQualityFor(p.geometry.geometryQuality),
               MeshMaterial(progress, p.geometry.colorScheme, env.layout))
  }

  /** The three per-file loops over a parsed folder. */
  datatype Batch = MorphologyBatch | PdbBatch | MeshBatch

  function BatchStep(b: Batch, p: Parameters, env: Environment, file: string, progress: nat): LoadStep {
    match b
    case MorphologyBatch => ImportMorphology(file, progress)
    case PdbBatch => ImportPDB(PdbName(p, file))
    case MeshBatch => MeshStep(p, env, file, progress)
  }

  function FileEvents(b: Batch, p: Parameters, env: Environment, n: nat, file: string, progress: nat): seq<Event> {
    match b
    case PdbBatch => PdbFileEvents(p, env, file, n)
    case _ => ImportCall(env, BatchStep(b, p, env, file, progress), true)
  }

  /** The loop body run for every file, with progress counting from 0. */
  function BatchEvents(b: Batch, p: Parameters, env: Environment, n: nat, files: seq<string>): seq<Event>
    decreases |files|
  {
    if files == [] then []
    else BatchEvents(b, p, env, n, files[..|files| - 1]) + FileEvents(b, p, env, n, files[|files| - 1], |files| - 1)
  }

  /** _loadMeshFolder: without the mesh library the folder is only reported. */
  function MeshFolderEvents(p: Parameters, env: Environment, folder: string): seq<Event> {
    if env.hasAssimp then BatchEvents(MeshBatch, p, env, 0, env.parseFolder(folder, MeshFiles))
    else [AssimpMissing(folder)]
  }

  /** Loading the colour map again after a simulation was attached. */
  function TransferFunctionReload(p: Parameters, env: Environment): seq<Event> {
    var cm := p.scene.colorMapFilename;
    if cm != "" then ImportCall(env, LoadTransferFunction(cm), false) + [CommitTransferFunctionData] else []
  }

  function EnvironmentMapSegment(p: Parameters): seq<Event> {
    if p.scene.environmentMap != "" then [SetSkyboxTexture(p.scene.environmentMap)] else []
  }

  function SplashSegment(p: Parameters, env: Environment): seq<Event> {
    if p.geometry.splashSceneFolder != "" then MeshFolderEvents(p, env, p.geometry.splashSceneFolder) else []
  }

  function ColorMapSegment(p: Parameters, env: Environment): seq<Event> {
    var cm := p.scene.colorMapFilename;
    (if cm != "" then ImportCall(env, LoadTransferFunction(cm), false) else []) + [CommitTransferFunctionData]
  }

  function MorphologySegment(p: Parameters, env: Environment): seq<Event> {
    var folder := p.geometry.morphologyFolder;
    if folder != "" then BatchEvents(MorphologyBatch, p, env, 0, env.parseFolder(folder, MorphologyFiles)) else []
  }

  function NestSegment(p: Parameters, env: Environment): seq<Event> {
    var g := p.geometry;
    if g.nestCircuit != "" then
      ImportCall(env, ImportNESTCircuit(g.nestCircuit), false)
      + ImportCall(env, ImportSpikeReport(g.nestReport), false)
      + (if g.nestCacheFile != "" then [AttachSpikeCache(g.nestCacheFile)] else [])
      + TransferFunctionReload(p, env)
    else []
  }

  function PdbFileSegment(p: Parameters, env: Environment, n: nat): seq<Event> {
    if p.geometry.pdbFile != "" then PdbFileEvents(p, env, p.geometry.pdbFile, n) else []
  }

  function PdbFolderSegment(p: Parameters, env: Environment, n: nat): seq<Event> {
    var folder := p.geometry.pdbFolder;
    if folder != "" then BatchEvents(PdbBatch, p, env, n, env.parseFolder(folder, PdbFiles)) else []
  }

  function MeshSegment(p: Parameters, env: Environment): seq<Event> {
    if p.geometry.meshFolder != "" then MeshFolderEvents(p, env, p.geometry.meshFolder) else []
  }

  function ReportStep(p: Parameters): LoadStep {
    ImportSimulationData(p.geometry.circuitConfiguration, p.geometry.target, p.geometry.report)
  }

  /** _loadCompartmentReport: the colour map is loaded again only when the
      simulation data was imported. */
  function ReportEvents(p: Parameters, env: Environment): seq<Event> {
    ImportCall(env, ReportStep(p), false)
    + (if env.importer(ReportStep(p)).ok then TransferFunctionReload(p, env) else [])
  }

  function ReportSegment(p: Parameters, env: Environment): seq<Event> {
    if p.geometry.report != "" then ReportEvents(p, env) else []
  }

  function CircuitStep(p: Parameters): LoadStep {
    var g := p.geometry;
    if g.report == "" then ImportCircuit(g.circuitConfiguration, g.target)
    else ImportCircuitWithReport(g.circuitConfiguration, g.target, g.report)
  }

  function CircuitSegment(p: Parameters, env: Environment): seq<Event> {
    if p.geometry.circuitConfiguration != "" && p.geometry.loadCacheFile == "" then
      ImportCall(env, CircuitStep(p), false)
    else []
  }

  function XyzbSegment(p: Parameters, env: Environment): seq<Event> {
    if p.geometry.xyzbFile != "" then ImportCall(env, ImportXYZB(p.geometry.xyzbFile), true) else []
  }

  /** _loadMolecularSystem: without the mesh library it is only reported. */
  function MolecularEvents(p: Parameters, env: Environment): seq<Event> {
    if env.hasAssimp then ImportCall(env, ImportMolecularSystem(p.geometry.molecularSystemConfig), false)
    else [AssimpMissing("molecular meshes")]
  }

  function MolecularSegment(p: Parameters, env: Environment): seq<Event> {
    if p.geometry.molecularSystemConfig != "" then MolecularEvents(p, env) else []
  }

  /** The far corner of a volume: offset + dimensions * element spacing. */
  function VolumeFarCorner(v: VolumeHandler, spacing: Vec3): Vec3 {
    v.offset.Plus(v.dimensions.ToVec3().Times(spacing))
  }

  function VolumeSegment(vol: Option<VolumeHandler>, spacing: Vec3): seq<Event> {
    if vol.Some? then
      [SetVolumeTimestamp(0.0), MergeWorldBounds(Origin), MergeWorldBounds(VolumeFarCorner(vol.value, spacing))]
    else []
  }

  /** The volume step depends on the volume's dimensions and offset only. */
  lemma VolumeSegmentFootprint(v: Option<VolumeHandler>, w: Option<VolumeHandler>, spacing: Vec3)
    requires VolumeFootprint(v) == VolumeFootprint(w)
    ensures VolumeSegment(v, spacing) == VolumeSegment(w, spacing)
  {
  }

  /** The nine guarded loader calls of _loadData, in order, in three runs of
      three: morphologies, NEST circuit and PDB file; PDB folder, meshes and
      compartment report; circuit, XYZB file and molecular system. */
  function NeuronAndProteinSegments(p: Parameters, env: Environment, n: nat): seq<Event> {
    MorphologySegment(p, env) + NestSegment(p, env) + PdbFileSegment(p, env, n)
  }

  function FolderAndReportSegments(p: Parameters, env: Environment, n: nat): seq<Event> {
    PdbFolderSegment(p, env, n) + MeshSegment(p, env) + ReportSegment(p, env)
  }

  function CircuitAndSystemSegments(p: Parameters, env: Environment): seq<Event> {
    CircuitSegment(p, env) + XyzbSegment(p, env) + MolecularSegment(p, env)
  }

  function LoaderSegments(p: Parameters, env: Environment, n: nat): seq<Event> {
    NeuronAndProteinSegments(p, env, n) + FolderAndReportSegments(p, env, n) + CircuitAndSystemSegments(p, env)
  }

  lemma Regroup3(a: seq<Event>, b: seq<Event>, c: seq<Event>)
    ensures a + (b + c) == a + b + c
  {
  }

  /** The start of _loadData: environment map, splash scene, colour map. */
  function SetupSegments(p: Parameters, env: Environment): seq<Event> {
    EnvironmentMapSegment(p) + SplashSegment(p, env) + ColorMapSegment(p, env)
  }

  /** _loadData in three parts: the scene setup, the loaders and the volume. */
  lemma LoadEventsParts(p: Parameters, env: Environment, n: nat, vol: Option<VolumeHandler>)
    ensures LoadEvents(p, env, n, vol)
         == SetupSegments(p, env) + LoaderSegments(p, env, n) + VolumeSegment(vol, p.volume.elementSpacing)
  {
    var setup := SetupSegments(p, env);
    var g1 := NeuronAndProteinSegments(p, env, n);
    var g2 := FolderAndReportSegments(p, env, n);
    var g3 := CircuitAndSystemSegments(p, env);
    Regroup3(setup, MorphologySegment(p, env) + NestSegment(p, env), PdbFileSegment(p, env, n));
    Regroup3(setup, MorphologySegment(p, env), NestSegment(p, env));
    assert setup + g1 == setup + MorphologySegment(p, env) + NestSegment(p, env) + PdbFileSegment(p, env, n);
    Regroup3(setup + g1, PdbFolderSegment(p, env, n) + MeshSegment(p, env), ReportSegment(p, env));
    Regroup3(setup + g1, PdbFolderSegment(p, env, n), MeshSegment(p, env));
    Regroup3(setup + g1 + g2, CircuitSegment(p, env) + XyzbSegment(p, env), MolecularSegment(p, env));
    Regroup3(setup + g1 + g2, CircuitSegment(p, env), XyzbSegment(p, env));
    Regroup3(setup, g1 + g2, g3);
    Regroup3(setup, g1, g2);
  }

  /** Everything _loadData issues, in its fixed order; `n` is the size of the
      material table and `vol` the scene's volume handler. */
  function LoadEvents(p: Parameters, env: Environment, n: nat, vol: Option<VolumeHandler>): seq<Event> {
    EnvironmentMapSegment(p)
    + SplashSegment(p, env)
    + ColorMapSegment(p, env)
    + MorphologySegment(p, env)
    + NestSegment(p, env)
    + PdbFileSegment(p, env, n)
    + PdbFolderSegment(p, env, n)
    + MeshSegment(p, env)
    + ReportSegment(p, env)
    + CircuitSegment(p, env)
    + XyzbSegment(p, env)
    + MolecularSegment(p, env)
    + VolumeSegment(vol, p.volume.elementSpacing)
  }
}
