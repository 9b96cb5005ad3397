/** The keyboard shortcuts Brayns::Impl registers and what each handler does
    to the parameter state. */
module Shortcuts {
  import opened Wrappers
  import opened Geometry
  import opened Params

  datatype Command =
    | BlackBackground | GrayBackground | WhiteBackground
    | DefaultRenderer | ParticleRenderer | ProximityRenderer | SimulationRenderer
    | DecreaseTimestamp | IncreaseTimestamp
    | ElectronShading
    | FlyMode | InspectMode
    | DecreaseAmbientOcclusion | IncreaseAmbientOcclusion
    | DiffuseShading | DisableShading
    | ResetTimestamp | InfiniteTimestamp
    | ToggleShadows | ToggleSoftShadows
    | IncreaseSamplesPerRay | DecreaseSamplesPerRay
    | ToggleLightEmittingMaterials

  datatype Binding = Binding(key: char, description: string, command: Command)

  /** _registerKeyboardShortcuts, in registration order. */
  const Bindings: seq<Binding> := [
    Binding('0', "Black background", BlackBackground),
    Binding('1', "Gray background", GrayBackground),
    Binding('2', "White background", WhiteBackground),
    Binding('6', "Default renderer", DefaultRenderer),
    Binding('7', "Particle renderer", ParticleRenderer),
    Binding('8', "Proximity renderer", ProximityRenderer),
    Binding('9', "Simulation renderer", SimulationRenderer),
    Binding('[', "Decrease timestamp by 1", DecreaseTimestamp),
    Binding(']', "Increase timestamp by 1", IncreaseTimestamp),
    Binding('e', "Enable eletron shading", ElectronShading),
    Binding('f', "Enable fly mode", FlyMode),
    Binding('i', "Enable inspect mode", InspectMode),
    Binding('o', "Decrease ambient occlusion strength", DecreaseAmbientOcclusion),
    Binding('O', "Increase ambient occlusion strength", IncreaseAmbientOcclusion),
    Binding('p', "Enable diffuse shading", DiffuseShading),
    Binding('P', "Disable shading", DisableShading),
    Binding('r', "Set timestamp to 0", ResetTimestamp),
    Binding('R', "Set timestamp to infinity", InfiniteTimestamp),
    Binding('u', "Enable/Disable shadows", ToggleShadows),
    Binding('U', "Enable/Disable soft shadows", ToggleSoftShadows),
    Binding('t', "Multiply samples per ray by 2", IncreaseSamplesPerRay),
    Binding('T', "Divide samples per ray by 2", DecreaseSamplesPerRay),
    Binding('y', "Enable/Disable light emitting materials", ToggleLightEmittingMaterials)
  ]

  /** The first binding registered for a key, if any. */
  function CommandFor(bindings: seq<Binding>, key: char): (r: Option<Command>)
    ensures r.None? <==> forall i :: 0 <= i < |bindings| ==> bindings[i].key != key
    ensures r.Some? ==> exists i :: 0 <= i < |bindings| && bindings[i].key == key && bindings[i].command == r.value
    decreases |bindings|
  {
    if bindings == [] then None
    else if bindings[0].key == key then Some(bindings[0].command)
    else CommandFor(bindings[1..], key)
  }

  /** The key each handler is registered under. */
  function KeyOf(c: Command): char {
    match c
    case BlackBackground => '0'
    case GrayBackground => '1'
    case WhiteBackground => '2'
    case DefaultRenderer => '6'
    case ParticleRenderer => '7'
    case ProximityRenderer => '8'
    case SimulationRenderer => '9'
    case DecreaseTimestamp => '['
    case IncreaseTimestamp => ']'
    case ElectronShading => 'e'
    case FlyMode => 'f'
    case InspectMode => 'i'
    case DecreaseAmbientOcclusion => 'o'
    case IncreaseAmbientOcclusion => 'O'
    case DiffuseShading => 'p'
    case DisableShading => 'P'
    case ResetTimestamp => 'r'
    case InfiniteTimestamp => 'R'
    case ToggleShadows => 'u'
    case ToggleSoftShadows => 'U'
    case IncreaseSamplesPerRay => 't'
    case DecreaseSamplesPerRay => 'T'
    case ToggleLightEmittingMaterials => 'y'
  }

  /** Every handler is reached by its key, and a key that is bound reaches
      the handler registered under it: the table binds no key twice. */
  lemma KeysReachTheirHandlers(c: Command, key: char)
    ensures CommandFor(Bindings, KeyOf(c)) == Some(c)
    ensures CommandFor(Bindings, key).Some? ==> KeyOf(CommandFor(Bindings, key).value) == key
  {
    BindingsFollowKeyOf();
    PositionsAreDistinct();
    var k := Position(c);
    forall j | 0 <= j < k
      ensures Bindings[j].key != KeyOf(c)
    {
      KeyOfIsInjective(Bindings[j].command, c);
    }
    FirstMatch(Bindings, k, KeyOf(c));
  }

  /** The lookup returns the first binding with the key. */
  lemma {:induction false} FirstMatch(bindings: seq<Binding>, k: nat, key: char)
    requires k < |bindings| && bindings[k].key == key
    requires forall j :: 0 <= j < k ==> bindings[j].key != key
    ensures CommandFor(bindings, key) == Some(bindings[k].command)
    decreases k
  {
    if k > 0 {
      FirstMatch(bindings[1..], k - 1, key);
    }
  }

  lemma PositionsAreDistinct()
    ensures forall j :: 0 <= j < |Bindings| ==> Position(Bindings[j].command) == j
  {
  }

  /** Where each handler sits in the table. */
  function Position(c: Command): (k: nat)
    ensures k < |Bindings| && Bindings[k].command == c
  {
    match c
    case BlackBackground => 0
    case GrayBackground => 1
    case WhiteBackground => 2
    case DefaultRenderer => 3
    case ParticleRenderer => 4
    case ProximityRenderer => 5
    case SimulationRenderer => 6
    case DecreaseTimestamp => 7
    case IncreaseTimestamp => 8
    case ElectronShading => 9
    case FlyMode => 10
    case InspectMode => 11
    case DecreaseAmbientOcclusion => 12
    case IncreaseAmbientOcclusion => 13
    case DiffuseShading => 14
    case DisableShading => 15
    case ResetTimestamp => 16
    case InfiniteTimestamp => 17
    case ToggleShadows => 18
    case ToggleSoftShadows => 19
    case IncreaseSamplesPerRay => 20
    case DecreaseSamplesPerRay => 21
    case ToggleLightEmittingMaterials => 22
  }

  lemma BindingsFollowKeyOf()
    ensures forall i :: 0 <= i < |Bindings| ==> Bindings[i].key == KeyOf(Bindings[i].command)
  {
  }

  lemma KeyOfIsInjective(c: Command, d: Command)
    ensures KeyOf(c) == KeyOf(d) ==> c == d
  {
  }

  /** The step of the ambient-occlusion shortcuts. */
  const StrengthStep: real := 0.1

  /** _increaseAmbientOcclusionStrength: add the step, clamp at 1. */
  function IncreaseStrength(s: real): (r: real)
    ensures r <= 1.0 && r <= s + StrengthStep
    ensures r == s + StrengthStep || r == 1.0
  {
    var t := s + StrengthStep;
    if t > 1.0 then 1.0 else t
  }

  /** _decreaseAmbientOcclusionStrength: subtract the step, clamp at 0. */
  function DecreaseStrength(s: real): (r: real)
    ensures r >= 0.0 && r >= s - StrengthStep
    ensures r == s - StrengthStep || r == 0.0
  {
    var t := s - StrengthStep;
    if t < 0.0 then 0.0 else t
  }

  function MinReal(a: real, b: real): real { if a <= b then a else b }
  function MaxReal(a: real, b: real): real { if a >= b then a else b }

  /** Both shortcuts keep a strength in [0, 1] there. */
  lemma StrengthStaysInUnitInterval(s: real)
    requires 0.0 <= s <= 1.0
    ensures 0.0 <= IncreaseStrength(s) <= 1.0
    ensures 0.0 <= DecreaseStrength(s) <= 1.0
  {
  }

  /** Away from the clamps the two shortcuts undo each other. */
  lemma StrengthStepsCancel(s: real)
    ensures s <= 1.0 - StrengthStep ==> DecreaseStrength(IncreaseStrength(s)) == MaxReal(s, 0.0)
    ensures s >= StrengthStep ==> IncreaseStrength(DecreaseStrength(s)) == MinReal(s, 1.0)
  {
  }

  function Repeat(f: real -> real, k: nat, s: real): real
    decreases k
  {
    if k == 0 then s else f(Repeat(f, k - 1, s))
  }

  /** k presses of 'O' give min(s + k/10, 1); k presses of 'o' give
      max(s - k/10, 0). */
  lemma {:induction false} RepeatedStrengthPresses(k: nat, s: real)
    ensures Repeat(IncreaseStrength, k, s) == MinReal(s + (k as real) * StrengthStep, 1.0) || (k == 0 && s > 1.0)
    ensures Repeat(DecreaseStrength, k, s) == MaxReal(s - (k as real) * StrengthStep, 0.0) || (k == 0 && s < 0.0)
    decreases k
  {
    if k > 0 {
      RepeatedStrengthPresses(k - 1, s);
      if k == 1 {
        assert Repeat(IncreaseStrength, 0, s) == s;
        assert Repeat(DecreaseStrength, 0, s) == s;
      }
    }
  }

  /** _increaseTimestamp and _decreaseTimestamp: one frame forward, and one
      frame back only from a positive timestamp. */
  function IncreaseTime(t: real): (r: real)
    ensures r > t
  {
    t + 1.0
  }

  function DecreaseTime(t: real): (r: real)
    ensures t > 0.0 ==> r == t - 1.0
    ensures t <= 0.0 ==> r == t
  {
    if t > 0.0 then t - 1.0 else t
  }

  /** _infiniteTimestamp stores the largest size_t value. */
  const InfiniteTime: real := 18446744073709551615.0

  lemma TimeStepsCancel(t: real)
    ensures t >= 0.0 ==> DecreaseTime(IncreaseTime(t)) == t
    ensures t > 0.0 ==> IncreaseTime(DecreaseTime(t)) == t
  {
  }

  /** k presses of ']' move the timestamp k frames forward; from a whole,
      non-negative timestamp, k presses of '[' move it k frames back but
      not below 0. */
  lemma {:induction false} RepeatedTimePresses(k: nat, t: real)
    ensures Repeat(IncreaseTime, k, t) == t + k as real
    ensures t >= 0.0 && t == t.Floor as real ==> Repeat(DecreaseTime, k, t) == MaxReal(t - k as real, 0.0)
    decreases k
  {
    if k > 0 {
      RepeatedTimePresses(k - 1, t);
      if t >= 0.0 && t == t.Floor as real {
        var prev := Repeat(DecreaseTime, k - 1, t);
        if prev > 0.0 {
          assert prev == (t.Floor - (k - 1)) as real;
        }
      }
    }
  }

  /** A whole, non-negative timestamp stays so under both shortcuts. */
  lemma WholeTimestampsStayNonNegative(t: real)
    requires t >= 0.0 && t == t.Floor as real
    ensures DecreaseTime(t) >= 0.0 && DecreaseTime(t) == DecreaseTime(t).Floor as real
    ensures IncreaseTime(t) >= 0.0 && IncreaseTime(t) == IncreaseTime(t).Floor as real
  {
    if t > 0.0 {
      assert t.Floor >= 1;
      assert (t - 1.0).Floor == t.Floor - 1;
    }
    assert (t + 1.0).Floor == t.Floor + 1;
  }

  /** _increaseSamplesPerRay and _decreaseSamplesPerRay. */
  function DoubleSamples(n: nat): (r: nat)
    ensures r == 2 * n
  {
    n * 2
  }

  function HalveSamples(n: nat): (r: nat)
    ensures n >= 4 ==> 2 * r <= n < 2 * r + 2
    ensures n < 4 ==> r == n
  {
    if n >= 4 then n / 2 else n
  }

  /** Halving never takes a sample count of at least 2 below 2, and undoes
      doubling. */
  lemma HalvingKeepsTwoSamples(n: nat)
    ensures n >= 2 ==> HalveSamples(n) >= 2
    ensures n >= 2 ==> HalveSamples(DoubleSamples(n)) == n
    ensures n >= 4 && n % 2 == 0 ==> DoubleSamples(HalveSamples(n)) == n
  {
  }

  /** Which parameter a shortcut writes. */
  datatype Field =
    | BackgroundField | RendererField | ShadingField | StrengthField | TimestampField
    | ShadowsField | SoftShadowsField | LightEmittingField | SamplesField | NoField

  function Touched(c: Command): Field {
    match c
    case BlackBackground | GrayBackground | WhiteBackground => BackgroundField
    case DefaultRenderer | ParticleRenderer | ProximityRenderer | SimulationRenderer => RendererField
    case ElectronShading | DiffuseShading | DisableShading => ShadingField
    case DecreaseAmbientOcclusion | IncreaseAmbientOcclusion => StrengthField
    case DecreaseTimestamp | IncreaseTimestamp | ResetTimestamp | InfiniteTimestamp => TimestampField
    case ToggleShadows => ShadowsField
    case ToggleSoftShadows => SoftShadowsField
    case ToggleLightEmittingMaterials => LightEmittingField
    case IncreaseSamplesPerRay | DecreaseSamplesPerRay => SamplesField
    case FlyMode | InspectMode => NoField
  }

  /** p and q agree on every parameter except possibly f. */
  predicate AgreeExcept(p: Parameters, q: Parameters, f: Field) {
    && p.application == q.application
    && p.geometry == q.geometry
    && p.rendering.engine == q.rendering.engine
    && p.rendering.headLight == q.rendering.headLight
    && (f != BackgroundField ==> p.rendering.backgroundColor == q.rendering.backgroundColor)
    && (f != RendererField ==> p.rendering.renderer == q.rendering.renderer)
    && (f != ShadingField ==> p.rendering.shading == q.rendering.shading)
    && (f != StrengthField ==> p.rendering.ambientOcclusionStrength == q.rendering.ambientOcclusionStrength)
    && (f != ShadowsField ==> p.rendering.shadows == q.rendering.shadows)
    && (f != SoftShadowsField ==> p.rendering.softShadows == q.rendering.softShadows)
    && (f != LightEmittingField ==> p.rendering.lightEmittingMaterials == q.rendering.lightEmittingMaterials)
    && p.scene.animationDelta == q.scene.animationDelta
    && p.scene.environmentMap == q.scene.environmentMap
    && p.scene.colorMapFilename == q.scene.colorMapFilename
    && (f != TimestampField ==> p.scene.timestamp == q.scene.timestamp)
    && p.volume.elementSpacing == q.volume.elementSpacing
    && (f != SamplesField ==> p.volume.samplesPerRay == q.volume.samplesPerRay)
  }

  /** What a shortcut handler does to the parameters; the fly and inspect
      shortcuts only switch the camera manipulator. Every handler writes its
      own parameter and nothing else. */
  function Apply(c: Command, p: Parameters): Parameters {
    var rp := p.rendering;
    var sp := p.scene;
    match c
    case BlackBackground => p.(rendering := rp.(backgroundColor := Vec3(0.0, 0.0, 0.0)))
    case GrayBackground => p.(rendering := rp.(backgroundColor := Vec3(0.5, 0.5, 0.5)))
    case WhiteBackground => p.(rendering := rp.(backgroundColor := Vec3(1.0, 1.0, 1.0)))
    case DefaultRenderer => p.(rendering := rp.(renderer := Basic))
    case ParticleRenderer => p.(rendering := rp.(renderer := Particle))
    case ProximityRenderer => p.(rendering := rp.(renderer := Proximity))
    case SimulationRenderer => p.(rendering := rp.(renderer := Simulation))
    case IncreaseTimestamp => p.(scene := sp.(timestamp := IncreaseTime(sp.timestamp)))
    case DecreaseTimestamp => p.(scene := sp.(timestamp := DecreaseTime(sp.timestamp)))
    case DiffuseShading => p.(rendering := rp.(shading := Diffuse))
    case ElectronShading => p.(rendering := rp.(shading := Electron))
    case DisableShading => p.(rendering := rp.(shading := NoShading))
    case IncreaseAmbientOcclusion =>
      p.(rendering := rp.(ambientOcclusionStrength := IncreaseStrength(rp.ambientOcclusionStrength)))
    case DecreaseAmbientOcclusion =>
      p.(rendering := rp.(ambientOcclusionStrength := DecreaseStrength(rp.ambientOcclusionStrength)))
    case ResetTimestamp => p.(scene := sp.(timestamp := 0.0))
    case InfiniteTimestamp => p.(scene := sp.(timestamp := InfiniteTime))
    case ToggleShadows => p.(rendering := rp.(shadows := !rp.shadows))
    case ToggleSoftShadows => p.(rendering := rp.(softShadows := !rp.softShadows))
    case IncreaseSamplesPerRay => p.(volume := p.volume.(samplesPerRay := DoubleSamples(p.volume.samplesPerRay)))
    case DecreaseSamplesPerRay => p.(volume := p.volume.(samplesPerRay := HalveSamples(p.volume.samplesPerRay)))
    case ToggleLightEmittingMaterials =>
      p.(rendering := rp.(lightEmittingMaterials := !rp.lightEmittingMaterials))
    case FlyMode | InspectMode => p
  }

  /** Every handler writes its own parameter and nothing else. */
  lemma ApplyWritesOnlyItsField(c: Command, p: Parameters)
    ensures AgreeExcept(p, Apply(c, p), Touched(c))
  {
    match c
    case BlackBackground | GrayBackground | WhiteBackground =>
    case DefaultRenderer | ParticleRenderer | ProximityRenderer | SimulationRenderer =>
    case ElectronShading | DiffuseShading | DisableShading =>
    case DecreaseAmbientOcclusion | IncreaseAmbientOcclusion =>
    case DecreaseTimestamp | IncreaseTimestamp | ResetTimestamp | InfiniteTimestamp =>
    case ToggleShadows | ToggleSoftShadows | ToggleLightEmittingMaterials =>
    case IncreaseSamplesPerRay | DecreaseSamplesPerRay =>
    case FlyMode | InspectMode =>
  }

  predicate IsToggle(c: Command) {
    c == ToggleShadows || c == ToggleSoftShadows || c == ToggleLightEmittingMaterials
  }

  predicate IsFixedSetter(c: Command) {
    Touched(c) in {BackgroundField, RendererField, ShadingField} || c == ResetTimestamp || c == InfiniteTimestamp
  }

  /** Pressing a toggle twice restores the parameters, and a toggle always
      flips its flag. */
  lemma TogglesAreInvolutions(c: Command, p: Parameters)
    requires IsToggle(c)
    ensures Apply(c, Apply(c, p)) == p
    ensures Apply(c, p) != p
  {
  }

  /** A fixed setter gives the same parameters however often it is pressed,
      and whatever the previous value of its parameter was. */
  lemma FixedSettersIgnoreHistory(c: Command, p: Parameters, q: Parameters)
    requires IsFixedSetter(c)
    requires AgreeExcept(p, q, Touched(c))
    ensures Apply(c, Apply(c, p)) == Apply(c, p)
    ensures Apply(c, p) == Apply(c, q)
  {
  }

  /** The fixed values the setters write. */
  lemma FixedSetterValues(p: Parameters)
    ensures Apply(BlackBackground, p).rendering.backgroundColor == Vec3(0.0, 0.0, 0.0)
    ensures Apply(GrayBackground, p).rendering.backgroundColor == Vec3(0.5, 0.5, 0.5)
    ensures Apply(WhiteBackground, p).rendering.backgroundColor == Vec3(1.0, 1.0, 1.0)
    ensures Apply(DefaultRenderer, p).rendering.renderer == Basic
    ensures Apply(ParticleRenderer, p).rendering.renderer == Particle
    ensures Apply(ProximityRenderer, p).rendering.renderer == Proximity
    ensures Apply(SimulationRenderer, p).rendering.renderer == Simulation
    ensures Apply(DiffuseShading, p).rendering.shading == Diffuse
    ensures Apply(ElectronShading, p).rendering.shading == Electron
    ensures Apply(DisableShading, p).rendering.shading == NoShading
    ensures Apply(ResetTimestamp, p).scene.timestamp == 0.0
    ensures Apply(InfiniteTimestamp, p).scene.timestamp == InfiniteTime
  {
    BackgroundValues(p);
    RendererValues(p);
    ShadingAndTimeValues(p);
  }

  lemma BackgroundValues(p: Parameters)
    ensures Apply(BlackBackground, p).rendering.backgroundColor == Vec3(0.0, 0.0, 0.0)
    ensures Apply(GrayBackground, p).rendering.backgroundColor == Vec3(0.5, 0.5, 0.5)
    ensures Apply(WhiteBackground, p).rendering.backgroundColor == Vec3(1.0, 1.0, 1.0)
  {
  }

  lemma RendererValues(p: Parameters)
    ensures Apply(DefaultRenderer, p).rendering.renderer == Basic
    ensures Apply(ParticleRenderer, p).rendering.renderer == Particle
    ensures Apply(ProximityRenderer, p).rendering.renderer == Proximity
    ensures Apply(SimulationRenderer, p).rendering.renderer == Simulation
  {
  }

  lemma ShadingAndTimeValues(p: Parameters)
    ensures Apply(DiffuseShading, p).rendering.shading == Diffuse
    ensures Apply(ElectronShading, p).rendering.shading == Electron
    ensures Apply(DisableShading, p).rendering.shading == NoShading
    ensures Apply(ResetTimestamp, p).scene.timestamp == 0.0
    ensures Apply(InfiniteTimestamp, p).scene.timestamp == InfiniteTime
  {
  }

  /** A strength in [0, 1] stays there whatever shortcuts are pressed. */
  lemma {:induction false} PressesKeepStrengthInUnitInterval(cs: seq<Command>, p: Parameters)
    requires 0.0 <= p.rendering.ambientOcclusionStrength <= 1.0
    ensures var q := ApplyAll(cs, p); 0.0 <= q.rendering.ambientOcclusionStrength <= 1.0
    decreases |cs|
  {
    if cs != [] {
      var q := Apply(cs[0], p);
      StrengthStaysInUnitInterval(p.rendering.ambientOcclusionStrength);
      PressesKeepStrengthInUnitInterval(cs[1..], q);
    }
  }

  function ApplyAll(cs: seq<Command>, p: Parameters): Parameters
    decreases |cs|
  {
    if cs == [] then p else ApplyAll(cs[1..], Apply(cs[0], p))
  }
}
