/** An engine (one instantiated rendering backend) together with the scene,
    camera and frame-buffer size it owns, and the trace of every call the
    orchestrator has made on it. */
module Engines {
  import opened Wrappers
  import opened Geometry
  import opened Params
  import opened Loaders

  /** A light of the scene; `directional` tells whether it is a
      DirectionalLight (the only kind whose direction head-light re-aims). */
  datatype Light = Light(directional: bool, direction: Vec3, color: Vec3, intensity: real)

  datatype Material = Material(color: Vec3)

  datatype VolumeHandler = VolumeHandler(dimensions: Dims, offset: Vec3, timestamp: real)

  /** The parts of a volume handler that place it in the world. */
  function VolumeFootprint(v: Option<VolumeHandler>): Option<(Dims, Vec3)> {
    if v.Some? then Some((v.value.dimensions, v.value.offset)) else None
  }

  datatype Scene = Scene(
    lights: seq<Light>,
    materials: seq<Material>,
    skyboxTexture: string,
    volume: Option<VolumeHandler>,
    simulationCache: Option<string>,
    bounds: Box,
    geometry: nat)

  /** Scene::empty: no geometry has been added. */
  predicate Empty(s: Scene) { s.geometry == 0 }

  datatype Camera = Camera(position: Vec3, target: Vec3, up: Vec3)

  datatype CameraMode = Flying | Inspect

  /** Everything the orchestrator does to an engine, its scene or its camera,
      in the order it does it. The first group are the backend hooks; log
      lines that report a failure are recorded too. */
  datatype Event =
    | Reshape(size: Size)
    | PreRender
    | Commit
    | SetActiveRenderer(renderer: RendererType)
    | Render
    | PostRender
    | CommitLights
    | CameraCommit
    | CameraSet(pose: Camera)
    | AddLight(light: Light)
    | AimLight0(direction: Vec3)
    | CommitVolumeData
    | CommitSimulationData
    | CommitTransferFunctionData
    | BuildEnvironment
    | BuildGeometry
    | BuildDefault
    | SceneCommit
    | SetDefaultCamera(camera: Camera)
    | SetDefaultEpsilon
    | ManipulatorBound(mode: CameraMode)
    | InstallRecreate
    | SetSkyboxTexture(path: string)
    | Import(step: LoadStep, result: LoaderResult)
    | ImportFailed(step: LoadStep)
    | AssimpMissing(context: string)
    | SetMaterialColor(index: nat, color: Vec3)
    | AttachSpikeCache(file: string)
    | SetVolumeTimestamp(time: real)
    | MergeWorldBounds(point: Vec3)

  predicate TouchesLights(ev: Event) { ev.AddLight? || ev.AimLight0? }

  datatype Engine = Engine(
    id: nat,
    name: string,
    scene: Scene,
    camera: Camera,
    frameSize: Size,
    trace: seq<Event>)

  /** What one event does to the scene. */
  function ApplyToScene(s: Scene, ev: Event): Scene {
    match ev
    case AddLight(l) => s.(lights := s.lights + [l])
    case AimLight0(d) =>
      if |s.lights| > 0 then s.(lights := s.lights[0 := s.lights[0].(direction := d)]) else s
    case BuildDefault => s.(geometry := s.geometry + 1)
    case SetSkyboxTexture(path) => s.(skyboxTexture := path)
    case Import(_, res) => s.(geometry := s.geometry + res.added, bounds := Union(s.bounds, res.extent))
    case AttachSpikeCache(f) => s.(simulationCache := Some(f))
    case SetMaterialColor(i, c) =>
      if i < |s.materials| then s.(materials := s.materials[i := s.materials[i].(color := c)]) else s
    case SetVolumeTimestamp(t) =>
      if s.volume.Some? then s.(volume := Some(s.volume.value.(timestamp := t))) else s
    case MergeWorldBounds(p) => s.(bounds := Merge(s.bounds, p))
    case _ => s
  }

  /** One call on the engine: it is recorded and takes effect. No call
      removes a light or a material, moves the volume, loses geometry or
      shrinks the world bounds. */
  function Step(e: Engine, ev: Event): (r: Engine)
    ensures r.id == e.id && r.name == e.name && r.trace == e.trace + [ev]
    ensures |r.scene.lights| >= |e.scene.lights| && |r.scene.materials| == |e.scene.materials|
    ensures !TouchesLights(ev) ==> r.scene.lights == e.scene.lights
    ensures VolumeFootprint(r.scene.volume) == VolumeFootprint(e.scene.volume)
    ensures r.scene.geometry >= e.scene.geometry
    ensures forall q :: Contains(e.scene.bounds, q) ==> Contains(r.scene.bounds, q)
  {
    var e1 := e.(trace := e.trace + [ev], scene := ApplyToScene(e.scene, ev));
    match ev
    case CameraSet(c) => e1.(camera := c)
    case SetDefaultCamera(c) => e1.(camera := c)
    case Reshape(size) => e1.(frameSize := size)
    case _ => e1
  }

  /** A sequence of calls, in order. */
  function Run(e: Engine, evs: seq<Event>): (r: Engine)
    ensures r.id == e.id && r.name == e.name && r.trace == e.trace + evs
    ensures |r.scene.lights| >= |e.scene.lights| && |r.scene.materials| == |e.scene.materials|
    ensures VolumeFootprint(r.scene.volume) == VolumeFootprint(e.scene.volume)
    ensures r.scene.geometry >= e.scene.geometry
    decreases |evs|
  {
    if evs == [] then e
    else
      assert evs == evs[..|evs| - 1] + [evs[|evs| - 1]];
      Step(Run(e, evs[..|evs| - 1]), evs[|evs| - 1])
  }

  lemma RunSnoc(e: Engine, evs: seq<Event>, ev: Event)
    ensures Run(e, evs + [ev]) == Step(Run(e, evs), ev)
  {
    assert (evs + [ev])[..|evs|] == evs;
  }

  lemma {:induction false} RunAppend(e: Engine, a: seq<Event>, b: seq<Event>)
    ensures Run(e, a + b) == Run(Run(e, a), b)
    decreases |b|
  {
    if b == [] {
      assert a + b == a;
    } else {
      var b' := b[..|b| - 1];
      var last := b[|b| - 1];
      assert b == b' + [last];
      assert a + b == (a + b') + [last];
      RunSnoc(e, a + b', last);
      RunAppend(e, a, b');
      RunSnoc(Run(e, a), b', last);
    }
  }

  /** Runs of a few literal calls. */
  lemma RunTwo(e: Engine, a: Event, b: Event)
    ensures Run(e, [a, b]) == Step(Step(e, a), b)
  {
    RunSnoc(e, [], a);
    assert [] + [a] == [a];
    RunSnoc(e, [a], b);
    assert [a] + [b] == [a, b];
  }

  lemma RunFour(e: Engine, a: Event, b: Event, c: Event, d: Event)
    ensures Run(e, [a, b, c, d]) == Step(Step(Step(Step(e, a), b), c), d)
  {
    RunThree(e, a, b, c);
    RunSnoc(e, [a, b, c], d);
    assert [a, b, c] + [d] == [a, b, c, d];
  }

  lemma RunFive(e: Engine, a: Event, b: Event, c: Event, d: Event, f: Event)
    ensures Run(e, [a, b, c, d, f]) == Step(Step(Step(Step(Step(e, a), b), c), d), f)
  {
    RunFour(e, a, b, c, d);
    RunSnoc(e, [a, b, c, d], f);
    assert [a, b, c, d] + [f] == [a, b, c, d, f];
  }

  lemma RunThree(e: Engine, a: Event, b: Event, c: Event)
    ensures Run(e, [a, b, c]) == Step(Step(Step(e, a), b), c)
  {
    RunSnoc(e, [], a);
    assert [] + [a] == [a];
    RunSnoc(e, [a], b);
    assert [a] + [b] == [a, b];
    RunSnoc(e, [a, b], c);
    assert [a, b] + [c] == [a, b, c];
  }

  /** Two consecutive runs are one run of both call sequences. */
  lemma Chain(a: Engine, b: Engine, c: Engine, x: seq<Event>, y: seq<Event>)
    requires b == Run(a, x) && c == Run(b, y)
    ensures c == Run(a, x + y)
  {
    RunAppend(a, x, y);
  }

  lemma StepSetsMaterial(e: Engine, i: nat, c: Vec3)
    requires i < |e.scene.materials|
    ensures Step(e, SetMaterialColor(i, c)).scene.materials == e.scene.materials[i := e.scene.materials[i].(color := c)]
  {
  }

  /** No call sequence shrinks the world bounds. */
  lemma {:induction false} RunGrowsBounds(e: Engine, evs: seq<Event>, q: Vec3)
    requires Contains(e.scene.bounds, q)
    ensures Contains(Run(e, evs).scene.bounds, q)
    decreases |evs|
  {
    if evs != [] {
      RunGrowsBounds(e, evs[..|evs| - 1], q);
    }
  }

  /** Calls that touch no light leave the light list as it was. */
  lemma {:induction false} RunKeepsLights(e: Engine, evs: seq<Event>)
    requires forall ev :: ev in evs ==> !TouchesLights(ev)
    ensures Run(e, evs).scene.lights == e.scene.lights
    decreases |evs|
  {
    if evs != [] {
      var init := evs[..|evs| - 1];
      assert forall ev :: ev in init ==> ev in evs;
      RunKeepsLights(e, init);
      assert evs[|evs| - 1] in evs;
    }
  }

  lemma StepIgnoresIdentity(e: Engine, ev: Event, id: nat)
    ensures Step(e.(id := id), ev) == Step(e, ev).(id := id)
  {
  }

  /** The effect of a call sequence does not depend on the engine's identity:
      two engines that differ only in their handle stay so. */
  lemma {:induction false} RunIgnoresIdentity(e: Engine, evs: seq<Event>, id: nat)
    ensures Run(e.(id := id), evs) == Run(e, evs).(id := id)
    decreases |evs|
  {
    if evs != [] {
      RunIgnoresIdentity(e, evs[..|evs| - 1], id);
    }
  }
}
