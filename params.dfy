/** The parameter groups of the ParametersManager that the orchestrator reads
    and that the keyboard shortcuts rewrite. Only the fields the orchestrator
    touches are modelled; file and folder parameters are strings, the empty
    string meaning "not given". */
module Params {
  import opened Geometry

  datatype RendererType = Basic | Particle | Proximity | Simulation | OtherRenderer(name: string)

  datatype ShadingType = NoShading | Diffuse | Electron

  datatype ColorScheme = NoColorScheme | NeuronById | OtherColorScheme

  datatype GeometryQuality = Low | Medium | High

  datatype ApplicationParameters = ApplicationParameters(windowSize: Size)

  datatype RenderingParameters = RenderingParameters(
    engine: string,
    renderer: RendererType,
    backgroundColor: Vec3,
    shading: ShadingType,
    ambientOcclusionStrength: real,
    shadows: bool,
    softShadows: bool,
    lightEmittingMaterials: bool,
    headLight: bool)

  datatype GeometryParameters = GeometryParameters(
    splashSceneFolder: string,
    morphologyFolder: string,
    nestCircuit: string,
    nestReport: string,
    nestCacheFile: string,
    pdbFile: string,
    pdbFolder: string,
    meshFolder: string,
    report: string,
    circuitConfiguration: string,
    loadCacheFile: string,
    target: string,
    xyzbFile: string,
    molecularSystemConfig: string,
    colorScheme: ColorScheme,
    geometryQuality: GeometryQuality)

  datatype SceneParameters = SceneParameters(
    timestamp: real,
    animationDelta: int,
    environmentMap: string,
    colorMapFilename: string)

  datatype VolumeParameters = VolumeParameters(
    samplesPerRay: nat,
    elementSpacing: Vec3)

  datatype Parameters = Parameters(
    application: ApplicationParameters,
    rendering: RenderingParameters,
    geometry: GeometryParameters,
    scene: SceneParameters,
    volume: VolumeParameters)
}
