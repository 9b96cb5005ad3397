/** The loader calls the orchestrator makes. Each concrete loader is a file
    parser outside this model: a call is described by a LoadStep, and what it
    does to the scene by a LoaderResult supplied by the environment. */
module Loaders {
  import opened Geometry

  datatype MeshQuality = MeshLow | MeshMedium | MeshHigh

  /** The material argument of MeshLoader::importMeshFromFile. */
  datatype MaterialChoice = MaterialIndex(index: nat) | NoMaterial

  /** The file filters handed to parseFolder by each folder batch. */
  datatype FileKind = MorphologyFiles | PdbFiles | MeshFiles

  datatype LoadStep =
    | LoadTransferFunction(file: string)
    | ImportMorphology(file: string, index: nat)
    | ImportNESTCircuit(file: string)
    | ImportSpikeReport(file: string)
    | ImportPDB(file: string)
    | ImportMesh(file: string, quality: MeshQuality, material: MaterialChoice)
    | ImportSimulationData(configuration: string, target: string, report: string)
    | ImportCircuit(configuration: string, target: string)
    | ImportCircuitWithReport(configuration: string, target: string, report: string)
    | ImportXYZB(file: string)
    | ImportMolecularSystem(configuration: string)

  /** ok: the loader's boolean result; added: how many primitives it put into
      the scene; extent: the bounds of what it added. */
  datatype LoaderResult = LoaderResult(ok: bool, added: nat, extent: Box)
}
