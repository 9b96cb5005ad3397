# Brayns orchestrator and extended-cone geometry, modelled in Dafny

This project models two parts of Brayns, a ray-tracing visualiser for neuroscience data.

**`Brayns::Impl`**, in `brayns/Brayns.cpp`, is the orchestrator. It owns the parameter state and asks the engine factory for the engine the parameters name. It loads the configured data sources into the engine's scene and builds the scene. It drives the two per-frame pipelines (headless `render(input, output)` and interactive `render()`) and applies the keyboard shortcuts.

**`ExtendedCones::finalize`**, in the OSPRay renderer plugin, resolves the parameters of an extended-cone geometry with their defaults. It rejects a missing data buffer or a zero stride, derives the cone count, and hands everything to the geometry-set call.

## How the model is organised

| file | module | contents |
|---|---|---|
| `wrappers.dfy` | `Wrappers` | `Option`, `Result`, `Outcome` |
| `geometry.dfy` | `Geometry` | vectors, sizes, boxes and `Boxf::merge` |
| `params.dfy` | `Params` | the application, rendering, scene, volume and geometry parameter groups |
| `loaders.dfy` | `Loaders` | the loader calls (`LoadStep`) and their results |
| `engines.dfy` | `Engines` | an engine with its scene, camera, frame size and call trace; `Step` (one call) and `Run` (a sequence of calls) |
| `data_loading.dfy` | `DataLoading` | the collaborators (`Environment`); the calls `_loadData` and every `_load*` helper issue, as pure sequences |
| `loading_properties.dfy` | `LoadingProperties` | which loaders run and under which parameters; folder batches; the volume bounds |
| `load_order.dfy` | `LoadOrder` | the order of the loader calls, as a rank that never decreases |
| `frames.dfy` | `Frames` | what each frame pipeline issues after the extensions ran; the buffer copy |
| `shortcuts.dfy` | `Shortcuts` | the shortcut table and what every handler does to the parameters |
| `brayns.dfy` | `Brayns` | `class Impl`: constructor, `createEngine`, `buildScene`, the loaders, both `render` overloads, `_render`, `_setupCameraManipulator`, the keyboard handler |
| `extended_cones.dfy` | `ExtendedCones` | `Resolve` (the pure resolver) and `class ExtendedConesGeometry` with `Finalize` |

### The engine

An engine is a value.
- It has a handle (`id`) given out by the factory's counter, and the engine name it was created for.
- Its scene holds lights (each tagged directional or not), materials, an optional volume handler, the world bounds and a geometry count.
- It also holds a camera and a frame size.
- It keeps the trace of every call made on it.

`Engines.Step(e, ev)` records one call and applies its effect. `Engines.Run(e, evs)` applies a sequence of calls in order.

The `Impl` class holds:
- the engine as `engine: Option<Engine>`;
- the parameters;
- the camera manipulator (a mode and the handle of the engine whose camera it drives);
- the factory bookkeeping: the next handle, the live handles and the removed handles, in order.

Every class method is proved against one of these pure functions:
- `DataLoading.LoadEvents`, which builds `Brayns.Loaded`;
- `Brayns.BuildSceneResult`;
- `Brayns.CreatedEngine`;
- `Frames.HeadlessTail` and `Frames.InteractiveTail`;
- `Frames.ExtractOutput`;
- `Shortcuts.Apply`, through the two-state predicate `Brayns.Impl.Handled`, for `KeyPressed` and `Handle`;
- `ExtendedCones.Resolve`, for `ExtendedConesGeometry.Finalize`.

For the engine methods, the `ensures` says that the new engine is the old engine run through that function's calls. The lemmas prove what the source promises about those call sequences.

### The collaborators

The loaders, `parseFolder`, the factory's set of known engine names and the mesh-library capability (`BRAYNS_USE_ASSIMP`) are fields of `DataLoading.Environment`, given to the constructor. So are the sun-light constants, the initial scene contents and the default-camera placement. A loader is a deterministic function from its call to a `LoaderResult`: the success flag, the number of primitives it added and the bounds of what it added. The scene's geometry count grows by that number, and those bounds are merged into the world bounds.

The extension plugins of a frame are an `ExtensionEffect`: the parameters they leave behind, and whether they called the engine's `recreate` callback. `recreate` is bound to `createEngine`.

### Where the code and its descriptions differ

The model follows the code in each case.
- `_loadCompartmentReport` runs whenever the report parameter is non-empty (`brayns/Brayns.cpp:294-295`). It does not also require a circuit configuration or the absence of a cache file.
- A null depth buffer leaves the caller's depth output unchanged (`brayns/Brayns.cpp:188-193`). It is not emptied.
- After the extensions swap the engine, the headless pipeline reshapes and prepares the new engine but does not set its camera from the input (`brayns/Brayns.cpp:148-152`).

## Model

| member | source | states |
|---|---|---|
| `Brayns.Impl.constructor` | brayns/Brayns.cpp:59-79 | The factory starts empty and `createEngine` runs once: a supported name gives engine handle 0 built by `CreatedEngine`, an inspect manipulator on it and a factory holding exactly handle 0. An unsupported name leaves no engine and no manipulator. |
| `Brayns.Impl.CreateEngine` | brayns/Brayns.cpp:81-105 | An existing engine is removed from the factory first. An unsupported name gives `Fail("Unsupported engine: " + name)` and leaves no engine. Otherwise the new engine has a fresh handle, different from the old one, and is exactly `CreatedEngine(handle)`; the manipulator is reset to inspect mode on it. |
| `Brayns.CreationOrder` | brayns/Brayns.cpp:95-104 | The created engine's trace is the sun light, then the calls of `buildScene`, then the `recreate` installation. `buildScene` adds no light and installs nothing, so the sun is the engine's only light. |
| `Brayns.CreatedLights` | brayns/Brayns.cpp:95-102 | A created engine has exactly one light, the default sun. |
| `Brayns.CreationIgnoresHandle` | brayns/Brayns.cpp:89-104 | Two creations from the same parameters differ only in their handle. |
| `Brayns.CreatedSceneContainsVolume` | brayns/Brayns.cpp:307-321 | With a volume handler, the created scene's world bounds contain the origin and the volume's far corner. The later steps of `buildScene` do not shrink the bounds. |
| `Brayns.Impl.BuildScene` | brayns/Brayns.cpp:107-135 | The engine becomes `BuildSceneResult` of the old engine, and the manipulator is reset to inspect mode on the engine's camera. |
| `Brayns.BuildSceneOrder` | brayns/Brayns.cpp:107-135 | The order of `buildScene`: the loader calls; then the volume and simulation commits, `buildEnvironment` and `buildGeometry`; then `buildDefault` with a second `buildGeometry` if and only if the built scene is empty and has no volume; then the scene commit, inspect mode, the default camera, the epsilon and the engine commit. Afterwards the scene is not empty or has a volume, and the lights are those it had before. |
| `Brayns.FallbackMakesSceneNonEmpty` | brayns/Brayns.cpp:117-122 | The default scene is built if and only if the scene is empty and has no volume handler. Afterwards the scene is not empty or has a volume. |
| `Brayns.BuildSceneState` | brayns/Brayns.cpp:107-135 | After `buildScene` the scene is not empty or has a volume, and its lights are unchanged. |
| `Brayns.BuildSceneCallsAddNothing` | brayns/Brayns.cpp:107-135 | `buildScene` neither adds a light nor installs the `recreate` callback. |
| `Brayns.AfterLoadSteps` | brayns/Brayns.cpp:111-134 | The steps after `_loadData`, in order, with the default-scene rule. No light is touched. |
| `Brayns.LoadingBuildsNoDefault` | brayns/Brayns.cpp:253-322 | `_loadData` never builds the default scene, adds a light or installs `recreate`. |
| `Brayns.Impl.FinishScene` | brayns/Brayns.cpp:124-134 | The scene commit, the inspect manipulator, the default camera fitted to the world bounds, the epsilon and the engine commit, in this order. |
| `Brayns.Impl.CommitAndBuild` | brayns/Brayns.cpp:112-115 | The volume and simulation commits, then the environment and geometry builds. |
| `Brayns.Impl.SetupCameraManipulator` | brayns/Brayns.cpp:569-586 | The manipulator is replaced by one of the requested mode, attached to the current engine. |
| `Brayns.Impl.LoadData` | brayns/Brayns.cpp:253-322 | The engine becomes `Loaded` of the old engine: the old engine run through `LoadEvents` for the current parameters. |
| `Brayns.Impl.LoadSceneSetup` | brayns/Brayns.cpp:260-277 | The environment map and the splash folder, each when given; the colour map when given; the transfer-function commit in every case. |
| `Brayns.Impl.RunLoaders` | brayns/Brayns.cpp:279-305 | The nine guarded loaders, in order; the circuit configuration only without a cache file. |
| `Brayns.Impl.LoadNeuronsAndProtein` | brayns/Brayns.cpp:279-286 | The morphology folder, the NEST circuit and the PDB file, each when given. |
| `Brayns.Impl.LoadFoldersAndReport` | brayns/Brayns.cpp:288-295 | The PDB folder, the mesh folder and the compartment report, each when given. |
| `Brayns.Impl.LoadCircuitAndSystems` | brayns/Brayns.cpp:297-305 | The circuit configuration (only without a cache file), the XYZB file and the molecular system, each when given. |
| `Brayns.Impl.FitVolume` | brayns/Brayns.cpp:307-321 | With a volume handler: timestamp 0, then the origin and the far corner are merged into the world bounds. |
| `Brayns.Impl.LoadMorphologyFolder` | brayns/Brayns.cpp:328-347 | Every parsed file is imported with its position as progress index. A failure is logged and the loop goes on. |
| `Brayns.Impl.LoadNESTCircuit` | brayns/Brayns.cpp:353-386 | The circuit and spike report are imported, the cache file is attached when given, and the colour map is loaded and committed again when given. |
| `Brayns.Impl.LoadPDBFolder` | brayns/Brayns.cpp:391-406 | Every parsed file goes through `_loadPDBFile`, in order. |
| `Brayns.Impl.LoadPDBFile` | brayns/Brayns.cpp:411-431 | An empty name stands for the PDB-file parameter. The import is made; a failure is logged; then every material is recoloured (the loop invariant). |
| `LoadingProperties.RecolorSetsEveryMaterial` | brayns/Brayns.cpp:426-430 | After the recolouring loop over all n materials, material i has the protein loader's colour for i and keeps its other attributes; the number of materials is unchanged. |
| `Brayns.Impl.LoadXYZBFile` | brayns/Brayns.cpp:436-448 | The XYZB import, with a failure logged. |
| `Brayns.Impl.LoadMeshFolder` | brayns/Brayns.cpp:454-497 | With the mesh library, every parsed file is imported with the material and quality its position and the parameters give. Without it, the folder is only reported. |
| `Brayns.Impl.LoadMeshFile` | brayns/Brayns.cpp:466-491 | One pass of the mesh loop, importing with `MeshMaterial` and `MeshQualityFor`. |
| `DataLoading.MeshMaterial` | brayns/Brayns.cpp:468-471 | A material index exactly under the neuron-by-id scheme. The index lies below `NB_MAX_MATERIALS - NB_SYSTEM_MATERIALS` and equals the progress below that bound; otherwise there is no material. |
| `DataLoading.MeshMaterialCycles` | brayns/Brayns.cpp:468-471 | Mesh materials repeat with period `NB_MAX_MATERIALS - NB_SYSTEM_MATERIALS`. |
| `DataLoading.MeshQualityFor` | brayns/Brayns.cpp:473-485 | Medium and high carry over; every other quality maps to low. |
| `Brayns.Impl.LoadCircuitConfiguration` | brayns/Brayns.cpp:503-520 | The circuit import, with the report when one is given. |
| `Brayns.Impl.LoadCompartmentReport` | brayns/Brayns.cpp:526-550 | The simulation-data import. The colour map is loaded and committed again only when that import succeeded and a colour map is given. |
| `Brayns.Impl.LoadMolecularSystem` | brayns/Brayns.cpp:556-567 | The molecular-system import with the mesh library; without it, only the report. |
| `Brayns.Impl.CallLoader` | brayns/Brayns.cpp:343-344 | A loader call returns the loader's flag. When the call is logged, a failure records `ImportFailed`. |
| `Brayns.Impl.ReloadTransferFunction` | brayns/Brayns.cpp:376-384 | The colour-map reload and commit, made only when a colour map is given. |
| `LoadingProperties.LoadersRunOnlyWhenGiven` | brayns/Brayns.cpp:260-305 | Every call `_loadData` makes is one its parameter allows: each loader only with a non-empty parameter, and the circuit configuration only without a cache file. |
| `LoadingProperties.LoadersRunWhenGiven` | brayns/Brayns.cpp:260-305 | Conversely, each loader runs when its parameter is given (the circuit without a cache file, the molecular system with the mesh library). With the mesh library, every file of the splash scene folder is imported with its mesh material and quality. The transfer-function data is committed in every case. The morphology, PDB and mesh folders are covered by `FoldersLoadEveryFile`. |
| `LoadingProperties.SplashLoadsEveryFile` | brayns/Brayns.cpp:266-267 | With a splash scene folder and the mesh library, every file of the folder is imported, the k-th with the material and quality for progress k. |
| `LoadOrder.LoadersInFixedOrder` | brayns/Brayns.cpp:260-305 | The loader calls of `_loadData` follow the fixed order: morphologies, the NEST circuit and its spike report, the PDB file and folder, the meshes, the compartment report, the circuit, the XYZB file, the molecular system. This is stated by an independent rank on the calls that never decreases along the calls. The colour-map calls are unranked, because the colour map is loaded again after a simulation is attached. The meshes are unranked when a splash scene is given, because the splash scene uses the same call. |
| `LoadingProperties.FoldersLoadEveryFile` | brayns/Brayns.cpp:279-292 | Every file of a given morphology, PDB or mesh folder is attempted. |
| `LoadingProperties.BatchAttemptsEveryFile` | brayns/Brayns.cpp:337-346 | A folder batch makes exactly one loader call per file, in file order, whatever earlier calls returned. |
| `LoadingProperties.BatchLogsFailures` | brayns/Brayns.cpp:339-346 | Every failed import in a folder batch is logged. |
| `LoadingProperties.LoadingKeepsLights` | brayns/Brayns.cpp:253-322 | Nothing `_loadData` issues touches a light. |
| `LoadingProperties.VolumeSegmentEffect` | brayns/Brayns.cpp:307-321 | The volume step leaves both merged points inside the world bounds and the volume timestamp at 0. |
| `LoadingProperties.VolumeInsideWorldBounds` | brayns/Brayns.cpp:307-321 | With a volume handler, after `_loadData` the world bounds contain the origin and `offset + dimensions * spacing`, and the volume timestamp is 0. |
| `Geometry.Merge` | brayns/Brayns.cpp:316-320 | Merging a point gives a box that holds it and every point of the old box. A point already inside leaves the box unchanged. |
| `Engines.RunGrowsBounds` | brayns/Brayns.cpp:316-320 | No sequence of engine calls shrinks the world bounds. |
| `Brayns.Impl.RenderHeadless` | brayns/Brayns.cpp:137-196 | The camera is set from the input, then reshape and `preRender`; then the extensions run. An unsupported recreated engine gives the error and no engine. Otherwise the remaining calls run on the engine the extensions left (`HeadlessTail`), then `postRender`, and the output is `ExtractOutput` at the window size. Without a recreate, the manipulator and the factory are unchanged. After a supported recreate, the old handle is removed, the next handle is taken and the manipulator is in inspect mode on the new engine. After an unsupported one, the manipulator and the next handle stay as they were. |
| `Brayns.Impl.HeadlessFrame` | brayns/Brayns.cpp:147-177 | Re-sync after a swap, the animation commit, the camera commit, the head light and `_render`, in this order. |
| `Brayns.HeadlessOutputSize` | brayns/Brayns.cpp:163-183 | At the buffer copy, the frame size is the input's window size, swapped or not. |
| `Frames.ExtractOutput` | brayns/Brayns.cpp:179-193 | A non-null colour buffer gives `width*height*colorDepth` bytes read from the buffer, plus the buffer's format. A non-null depth buffer gives `width*height` values. A null buffer leaves its output fields unchanged. |
| `Brayns.Impl.RenderInteractive` | brayns/Brayns.cpp:198-239 | The engine is reshaped to the window size read before the extensions and prepared; then the extensions run. An unsupported recreated engine gives the error and no engine. Otherwise `InteractiveTail` runs, then `postRender`. The manipulator and the factory change as for `RenderHeadless`. |
| `Brayns.Impl.InteractiveFrame` | brayns/Brayns.cpp:209-236 | Re-sync after a swap, the animation commit, the head light, the camera commit and `_render`, in this order. |
| `Brayns.Impl.ExecuteExtensions` | brayns/Brayns.cpp:144-148 | The extensions set the parameters. `recreate` behaves as `createEngine`: the old engine is removed and the new one receives the next, different handle, with the manipulator in inspect mode on it. If the name is unsupported there is no engine, and the manipulator and the next handle are unchanged. Without `recreate`, the engine, the manipulator and the factory are unchanged. |
| `Frames.TailOrder` | brayns/Brayns.cpp:147-177 | After a swap, reshape and `preRender` come first. Without a swap, neither appears. `setActiveRenderer` with the configured renderer comes right before `render`, which ends the tail. |
| `Frames.CommitIffAnimating` | brayns/Brayns.cpp:154-156 | The engine is committed during a frame if and only if the animation delta is non-zero. |
| `Frames.HeadlessHeadLight` | brayns/Brayns.cpp:165-175 | With the head light on and a directional light 0, light 0's direction becomes camera target minus position and the lights are committed. Otherwise no light changes and no light commit is made. |
| `Frames.InteractiveHeadLight` | brayns/Brayns.cpp:223-233 | The same for `render()`. |
| `Frames.TailFrameSize` | brayns/Brayns.cpp:147-163 | The frame size at buffer-copy time is the window size after a swap, and the engine's own otherwise. |
| `Brayns.Impl.CommitIfAnimating` | brayns/Brayns.cpp:154-156 | The engine commit, exactly when the animation delta is non-zero. |
| `Brayns.Impl.AimHeadLight` | brayns/Brayns.cpp:165-175 | The head-light update as `HeadLightEvents` of the engine. |
| `Brayns.Impl.RenderWithActiveRenderer` | brayns/Brayns.cpp:246-251 | `setActiveRenderer` with the configured renderer, then `render`. |
| `Shortcuts.KeysReachTheirHandlers` | brayns/Brayns.cpp:588-661 | Each handler is reached by the key it is registered under, and no key is registered twice. |
| `Shortcuts.CommandFor` | brayns/Brayns.cpp:588-661 | A key's lookup has no result exactly when no binding has that key, and otherwise returns a binding registered under it. |
| `Brayns.Impl.KeyPressed` | brayns/Brayns.cpp:588-661 | A registered key runs its handler; an unregistered key changes nothing. |
| `Brayns.Impl.Handle` | brayns/Brayns.cpp:620-627 | The fly and inspect keys switch the manipulator and leave the parameters alone. The samples-per-ray keys update the parameters and commit the volume data. Every other handler only updates the parameters. |
| `Shortcuts.ApplyWritesOnlyItsField` | brayns/Brayns.cpp:663-819 | Every handler writes its own parameter and nothing else. |
| `Shortcuts.FixedSetterValues` | brayns/Brayns.cpp:663-781 | The background, renderer, shading, reset and infinite-timestamp handlers write their fixed values. |
| `Shortcuts.FixedSettersIgnoreHistory` | brayns/Brayns.cpp:663-746 | A fixed setter gives the same parameters however often it is pressed and whatever its parameter held before. |
| `Shortcuts.TogglesAreInvolutions` | brayns/Brayns.cpp:782-819 | Pressing the shadow, soft-shadow or light-emission toggle twice restores the parameters, and once always changes them. |
| `Shortcuts.IncreaseStrength` | brayns/Brayns.cpp:748-757 | Add 0.1, clamped at 1. |
| `Shortcuts.DecreaseStrength` | brayns/Brayns.cpp:759-768 | Subtract 0.1, clamped at 0. |
| `Shortcuts.StrengthStaysInUnitInterval` | brayns/Brayns.cpp:748-768 | From a strength in [0, 1], both shortcuts stay in [0, 1]. |
| `Shortcuts.StrengthStepsCancel` | brayns/Brayns.cpp:748-768 | Away from the clamps, the two strength shortcuts undo each other. |
| `Shortcuts.RepeatedStrengthPresses` | brayns/Brayns.cpp:748-768 | k presses give `min(s + k/10, 1)` and `max(s - k/10, 0)`. |
| `Shortcuts.PressesKeepStrengthInUnitInterval` | brayns/Brayns.cpp:663-819 | No sequence of shortcuts takes a strength in [0, 1] out of it. |
| `Shortcuts.RepeatedTimePresses` | brayns/Brayns.cpp:712-725 | k presses of the increase key add k to the timestamp. From a whole, non-negative timestamp, k presses of the decrease key give `max(t - k, 0)`. |
| `Shortcuts.TimeStepsCancel` | brayns/Brayns.cpp:712-725 | Increase then decrease restores a non-negative timestamp; decrease then increase restores a positive one. |
| `Shortcuts.WholeTimestampsStayNonNegative` | brayns/Brayns.cpp:712-725 | A whole, non-negative timestamp stays whole and non-negative. |
| `Shortcuts.HalveSamples` | brayns/Brayns.cpp:804-811 | The samples per ray halve (integer division) only from 4 on, and otherwise stay. |
| `Shortcuts.HalvingKeepsTwoSamples` | brayns/Brayns.cpp:796-811 | Halving never takes a count of at least 2 below 2. It undoes doubling, and doubling undoes it for an even count of at least 4. |
| `ExtendedCones.Resolve` | plugins/renderers/ospray/geometry/ExtendedCones.cpp:34-67 | Failure with the "no 'extendedcones' data specified" message exactly when the data buffer is missing or the stride is 0. Otherwise the configuration holds the values read and the buffer size, and the count c satisfies `c*stride <= numBytes < (c+1)*stride`. |
| `ExtendedCones.GivenStrideDividesBuffer` | plugins/renderers/ospray/geometry/ExtendedCones.cpp:36-51 | Attaching a buffer and a positive stride to any parameter set changes only those two fields: every other value is read as before, and the count is the buffer size divided by the stride. |
| `ExtendedCones.WholeRecords` | plugins/renderers/ospray/geometry/ExtendedCones.cpp:51 | Integer division: whole records only; a trailing partial record is not counted. |
| `ExtendedCones.DefaultsWithDataOnly` | plugins/renderers/ospray/geometry/ExtendedCones.cpp:36-51 | With only the buffer given: radius and length 0.01, material 0, a 36-byte record with center at 0, up at 12, radius at 24, length at 28, frame at 32, no material offset (-1), and `numBytes / 36` cones. |
| `ExtendedCones.MissingDataOrZeroStrideFails` | plugins/renderers/ospray/geometry/ExtendedCones.cpp:46-50 | A missing buffer fails whatever else is given, and so does an explicit zero stride. |
| `ExtendedCones.NegativeStrideCountsAtMostOne` | plugins/renderers/ospray/geometry/ExtendedCones.cpp:48-51 | A negative stride passes the guard. Converted to `size_t`, it leaves room for at most one record. |
| `ExtendedCones.ExtendedConesGeometry.Finalize` | plugins/renderers/ospray/geometry/ExtendedCones.cpp:34-67 | The fields hold the values read, in every case. On success the count is set and the geometry-set call receives exactly the resolved values. On failure the error is returned and the count and the geometry are as before. |
| `ExtendedCones.ExtendedConesGeometry.Store` | plugins/renderers/ospray/geometry/ExtendedCones.cpp:36-46 | The eleven field assignments: the fields become the values read, and nothing else changes. |

## Left out

- Logging and `BRAYNS_PROGRESS` output are not modelled. Only the failures each loader logs appear, as `ImportFailed` calls; the "Assimp library is required" messages appear as `AssimpMissing` calls.
- The concrete loaders are not modelled because they parse file formats. Each one is a function from its call to a `LoaderResult` (`Environment.importer`): a success flag, a primitive count and an extent. The geometry a loader adds is described only by that count and extent. An exception a loader throws is not modelled.
- `parseFolder` and `servus::URI` are not modelled because they belong to the file system and URI parsing. A folder is the sequence of names `Environment.parseFolder` returns.
- The internals of `EngineFactory` and `ExtensionPluginFactory` are not modelled because they are foreign plugin code. The factory's `get` is the set of supported names; `remove` is recorded in `FactoryState.removed`. A frame's extensions are an `ExtensionEffect`: new parameters plus whether `recreate` was called. The construction of the extension plugin factory with the manipulator is left out.
- Command-line parsing and `ParametersManager` are not modelled: the constructor receives the parsed `Parameters`.
- Exceptions are not modelled as control flow. An unsupported engine name in `createEngine` becomes `Fail("Unsupported engine: " + name)` (a `Failure` from `RenderHeadless`) and leaves no engine; the caller sees the error instead of an unwound stack.
- `_meshLoader.clear()` and the mesh loader's state are left out, because the loader itself is not modelled.
- The backend effects of these calls are not modelled: `commit`, `render`, `preRender`, `postRender`, `setActiveRenderer`, `setDefaultEpsilon`, `buildEnvironment`, `buildGeometry`, the scene, simulation, volume, transfer-function, light and camera commits. Each is recorded in the engine's trace and changes nothing else. In particular none of them changes the world bounds, which is what the bounds lemmas such as `CreatedSceneContainsVolume` rely on. `setDefaultCamera` is `Environment.defaultCamera` applied to the world bounds.
- `buildDefault` is modelled as adding one unit of geometry and leaving the world bounds unchanged; the default scene's actual contents are not modelled.
- Camera-manipulator motion is left out because it is float geometry. A manipulator is its mode and the handle of the engine it drives.
- The keyboard handler's own dispatch (`KeyboardHandler`) is modelled only as a lookup of the first binding with the key in the registration table.
- Floating-point precision is not modelled. Strengths, timestamps, colours and positions are mathematical reals. The `size_t`-max timestamp is the real 18446744073709551615.
- `Shortcuts.DoubleSamples`: the samples per ray are unbounded naturals, so `int` overflow on doubling is not modelled.
- ExecuteExtensions: the source detects a swap by comparing the engine's address before and after the extensions ran (`brayns/Brayns.cpp:144-148`). `createEngine` frees the old engine before the factory allocates the new one, so the new engine may reuse the old address, and then the re-sync is skipped. The model compares handles from a counter that is never reused, so a swap is always detected. `Frames.TailOrder` rests on that.
- RenderHeadless: the colour and depth buffers, their colour depth and their format are a parameter (`Frames.BackendBuffers`). They are not tied to the frame buffer of the engine that rendered, so the model does not state that the output comes from the new engine's buffer after a swap. Only the frame size used for the copy is read from the engine.
- RenderHeadless: in the buffer sizes `frameSize.x() * frameSize.y() * colorDepth` and `frameSize.x() * frameSize.y()` (`brayns/Brayns.cpp:181-182, 189`), the product of the two frame dimensions is an `int` product in the source and can overflow. The model computes both sizes on unbounded integers.
- The environment map is modelled as the scene's own `skyboxTexture` field. In the source it is the diffuse texture of the material at `MATERIAL_SKYBOX` (`brayns/Brayns.cpp:261-264`). A material in the model carries only its colour, so the model does not capture that the environment map and the protein colours meet in the same material. The PDB recolouring loop changes that material's colour like every other's, and the texture it holds is not modelled.
- `ExtendedCones.FloatOr` and `ExtendedCones.IntOr`: a parameter set with another type is treated as absent, which gives the default.
- The ISPC calls, `ExtendedCones_create` and `ExtendedConesGeometry_set`, are not modelled. The set call is recorded as `GeometrySet` with the values passed; the model handle and the data address are left out. `ExtendedCones.h` is not part of this model; the fields take the types the values have when read (`int32` offsets, a `size_t` count).
- `_loadData` is verified as a composition of helper methods (`LoadSceneSetup`, the three loader groups, `FitVolume`), and each render entry point likewise (`HeadlessFrame`, `InteractiveFrame`). The calls and their order are those of the source.
