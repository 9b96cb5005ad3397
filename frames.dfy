/** The two per-frame pipelines of Brayns::Impl: the calls issued on the
    engine after extensions ran, and the copy of the frame buffer into the
    caller's RenderOutput. */
module Frames {
  import opened Wrappers
  import opened Geometry
  import opened Params
  import opened Engines

  /** The engine's frame buffer as the backend exposes it after rendering:
      each buffer may be null. */
  newtype byte = x: int | 0 <= x < 256

  datatype BackendBuffers = BackendBuffers(
    colorDepth: nat,
    format: nat,
    color: Option<nat -> byte>,
    depth: Option<nat -> real>)

  /** RenderInput and RenderOutput of the headless entry point. */
  datatype RenderInput = RenderInput(position: Vec3, target: Vec3, up: Vec3, windowSize: Size)
  datatype RenderOutput = RenderOutput(colorBuffer: seq<byte>, colorBufferFormat: nat, depthBuffer: seq<real>)

  /** A replaced engine is reshaped and prepared again. */
  function Resync(swapped: bool, ws: Size): seq<Event> {
    if swapped then [Reshape(ws), PreRender] else []
  }

  /** A running animation forces a commit of the engine. */
  function AnimationCommit(p: Parameters): seq<Event> {
    if p.scene.animationDelta != 0 then [Commit] else []
  }

  /** The head light follows the camera when light 0 is a directional light;
      any other light 0 (or none) is left alone. */
  predicate HeadLightApplies(e: Engine, p: Parameters) {
    p.rendering.headLight && |e.scene.lights| > 0 && e.scene.lights[0].directional
  }

  function HeadLightEvents(e: Engine, p: Parameters): seq<Event> {
    if HeadLightApplies(e, p) then [AimLight0(e.camera.target.Minus(e.camera.position)), CommitLights] else []
  }

  /** _render: the configured renderer is activated, then the frame rendered. */
  function RenderCall(p: Parameters): seq<Event> {
    [SetActiveRenderer(p.rendering.renderer), Render]
  }

  /** What render(input, output) issues after extensions ran, up to the
      buffer copy: the camera is committed before the head light is aimed. */
  function HeadlessTail(e: Engine, p: Parameters, swapped: bool, ws: Size): seq<Event> {
    Resync(swapped, ws) + AnimationCommit(p) + [CameraCommit] + HeadLightEvents(e, p) + RenderCall(p)
  }

  /** What render() issues after extensions ran: the head light is aimed
      before the camera is committed. */
  function InteractiveTail(e: Engine, p: Parameters, swapped: bool, ws: Size): seq<Event> {
    Resync(swapped, ws) + AnimationCommit(p) + HeadLightEvents(e, p) + [CameraCommit] + RenderCall(p)
  }

  /** The copy into the caller's RenderOutput: a non-null colour buffer
      gives width*height*colorDepth bytes and the buffer format, a non-null
      depth buffer width*height values; a null buffer leaves that part of
      the output as it was. */
  function ExtractOutput(fb: BackendBuffers, size: Size, prev: RenderOutput): (out: RenderOutput)
    ensures fb.color.Some? ==>
      |out.colorBuffer| == size.x * size.y * fb.colorDepth && out.colorBufferFormat == fb.format &&
      forall i :: 0 <= i < |out.colorBuffer| ==> out.colorBuffer[i] == fb.color.value(i)
    ensures fb.color.None? ==> out.colorBuffer == prev.colorBuffer && out.colorBufferFormat == prev.colorBufferFormat
    ensures fb.depth.Some? ==>
      |out.depthBuffer| == size.x * size.y &&
      forall i :: 0 <= i < |out.depthBuffer| ==> out.depthBuffer[i] == fb.depth.value(i)
    ensures fb.depth.None? ==> out.depthBuffer == prev.depthBuffer
  {
    var withColor :=
      if fb.color.Some? then
        prev.(colorBuffer := seq(size.x * size.y * fb.colorDepth, i requires 0 <= i => fb.color.value(i)),
              colorBufferFormat := fb.format)
      else prev;
    if fb.depth.Some? then withColor.(depthBuffer := seq(size.x * size.y, i requires 0 <= i => fb.depth.value(i)))
    else withColor
  }

  /** Re-sync comes first: after a swap the new engine is reshaped to the
      window size and prepared before any commit or render; the renderer is
      activated right before render, which closes the tail. */
  lemma TailOrder(e: Engine, p: Parameters, swapped: bool, ws: Size)
    ensures var t := HeadlessTail(e, p, swapped, ws);
      |t| >= 3 && t[|t| - 2] == SetActiveRenderer(p.rendering.renderer) && t[|t| - 1] == Render &&
      (swapped ==> t[0] == Reshape(ws) && t[1] == PreRender) &&
      (!swapped ==> Reshape(ws) !in t && PreRender !in t)
    ensures var t := InteractiveTail(e, p, swapped, ws);
      |t| >= 3 && t[|t| - 2] == SetActiveRenderer(p.rendering.renderer) && t[|t| - 1] == Render &&
      (swapped ==> t[0] == Reshape(ws) && t[1] == PreRender) &&
      (!swapped ==> Reshape(ws) !in t && PreRender !in t)
  {
  }

  /** The engine is committed during a frame exactly when the animation
      delta is non-zero. */
  lemma CommitIffAnimating(e: Engine, p: Parameters, swapped: bool, ws: Size)
    ensures Commit in HeadlessTail(e, p, swapped, ws) <==> p.scene.animationDelta != 0
    ensures Commit in InteractiveTail(e, p, swapped, ws) <==> p.scene.animationDelta != 0
  {
    var hl := HeadLightEvents(e, p);
    assert Commit !in hl;
    assert Commit !in Resync(swapped, ws);
    assert Commit !in RenderCall(p);
  }

  /** Running a call sequence whose only light call is AimLight0(d) at some
      position sets light 0's direction to d and keeps every other light. */
  lemma {:induction false} RunAimsOnce(e: Engine, a: seq<Event>, d: Vec3, b: seq<Event>)
    requires |e.scene.lights| > 0
    requires forall ev :: ev in a ==> !TouchesLights(ev)
    requires forall ev :: ev in b ==> !TouchesLights(ev)
    ensures Run(e, a + [AimLight0(d)] + b).scene.lights ==
      e.scene.lights[0 := e.scene.lights[0].(direction := d)]
  {
    RunKeepsLights(e, a);
    RunAppend(e, a, [AimLight0(d)]);
    RunSnoc(Run(e, a), [], AimLight0(d));
    assert [] + [AimLight0(d)] == [AimLight0(d)];
    RunAppend(e, a + [AimLight0(d)], b);
    RunKeepsLights(Run(e, a + [AimLight0(d)]), b);
  }

  /** The head light is aimed along the camera's view direction when it
      applies, and no light changes otherwise. */
  lemma HeadlessHeadLight(e: Engine, p: Parameters, swapped: bool, ws: Size)
    ensures var r := Run(e, HeadlessTail(e, p, swapped, ws)).scene.lights;
      (HeadLightApplies(e, p) ==>
         r == e.scene.lights[0 := e.scene.lights[0].(direction := e.camera.target.Minus(e.camera.position))]) &&
      (!HeadLightApplies(e, p) ==> r == e.scene.lights)
    ensures CommitLights in HeadlessTail(e, p, swapped, ws) <==> HeadLightApplies(e, p)
  {
    var pre := HeadlessPre(p, swapped, ws);
    var d := e.camera.target.Minus(e.camera.position);
    PreKeepsView(p, swapped, ws);
    if HeadLightApplies(e, p) {
      var post := [CommitLights] + RenderCall(p);
      assert HeadlessTail(e, p, swapped, ws) == pre + [AimLight0(d)] + post;
      RunAimsOnce(e, pre, d, post);
    } else {
      assert HeadlessTail(e, p, swapped, ws) == pre + RenderCall(p);
      RunKeepsLights(e, pre + RenderCall(p));
    }
  }

  lemma InteractiveHeadLight(e: Engine, p: Parameters, swapped: bool, ws: Size)
    ensures var r := Run(e, InteractiveTail(e, p, swapped, ws)).scene.lights;
      (HeadLightApplies(e, p) ==>
         r == e.scene.lights[0 := e.scene.lights[0].(direction := e.camera.target.Minus(e.camera.position))]) &&
      (!HeadLightApplies(e, p) ==> r == e.scene.lights)
    ensures CommitLights in InteractiveTail(e, p, swapped, ws) <==> HeadLightApplies(e, p)
  {
    var pre := InteractivePre(p, swapped, ws);
    var d := e.camera.target.Minus(e.camera.position);
    PreKeepsView(p, swapped, ws);
    if HeadLightApplies(e, p) {
      var post := [CommitLights] + [CameraCommit] + RenderCall(p);
      assert InteractiveTail(e, p, swapped, ws) == pre + [AimLight0(d)] + post;
      RunAimsOnce(e, pre, d, post);
    } else {
      assert InteractiveTail(e, p, swapped, ws) == pre + [CameraCommit] + RenderCall(p);
      RunKeepsLights(e, pre + [CameraCommit] + RenderCall(p));
    }
  }

  /** The calls before the head light, and after it, leave lights alone. */
  lemma PreKeepsView(p: Parameters, swapped: bool, ws: Size)
    ensures forall ev :: ev in HeadlessPre(p, swapped, ws) + RenderCall(p) ==> KeepsView(ev)
    ensures forall ev :: ev in InteractivePre(p, swapped, ws) + [CameraCommit] + RenderCall(p) ==> KeepsView(ev)
    ensures forall ev :: ev in HeadlessPre(p, swapped, ws) ==> KeepsView(ev)
    ensures forall ev :: ev in InteractivePre(p, swapped, ws) ==> KeepsView(ev)
  {
  }

  /** Calls that neither touch a light nor place the camera leave the view
      the head light is aimed from (lights and camera) as it was. */
  predicate KeepsView(ev: Event) {
    !TouchesLights(ev) && !ev.CameraSet? && !ev.SetDefaultCamera?
  }

  lemma {:induction false} RunKeepsView(e: Engine, evs: seq<Event>)
    requires forall ev :: ev in evs ==> KeepsView(ev)
    ensures Run(e, evs).scene.lights == e.scene.lights && Run(e, evs).camera == e.camera
    decreases |evs|
  {
    if evs != [] {
      var init := evs[..|evs| - 1];
      assert forall ev :: ev in init ==> ev in evs;
      RunKeepsView(e, init);
      assert KeepsView(evs[|evs| - 1]);
    }
  }

  /** The head light events are the same whether computed before or after
      the re-sync, animation commit and camera commit. */
  lemma HeadLightUnaffected(e: Engine, p: Parameters, evs: seq<Event>)
    requires forall ev :: ev in evs ==> KeepsView(ev)
    ensures HeadLightEvents(Run(e, evs), p) == HeadLightEvents(e, p)
  {
    RunKeepsView(e, evs);
  }

  /** The calls before the head light in each pipeline. */
  function HeadlessPre(p: Parameters, swapped: bool, ws: Size): seq<Event> {
    Resync(swapped, ws) + AnimationCommit(p) + [CameraCommit]
  }

  function InteractivePre(p: Parameters, swapped: bool, ws: Size): seq<Event> {
    Resync(swapped, ws) + AnimationCommit(p)
  }

  lemma HeadlessPreKeepsView(e: Engine, p: Parameters, swapped: bool, ws: Size)
    ensures HeadLightEvents(Run(e, HeadlessPre(p, swapped, ws)), p) == HeadLightEvents(e, p)
  {
    PreKeepsView(p, swapped, ws);
    HeadLightUnaffected(e, p, HeadlessPre(p, swapped, ws));
  }

  lemma InteractivePreKeepsView(e: Engine, p: Parameters, swapped: bool, ws: Size)
    ensures HeadLightEvents(Run(e, InteractivePre(p, swapped, ws)), p) == HeadLightEvents(e, p)
  {
    PreKeepsView(p, swapped, ws);
    HeadLightUnaffected(e, p, InteractivePre(p, swapped, ws));
  }

  /** The frame size at buffer-copy time: a re-synced engine has the window
      size, any other keeps the size it had. */
  lemma {:induction false} RunFrameSize(e: Engine, evs: seq<Event>)
    requires forall ev :: ev in evs ==> !ev.Reshape?
    ensures Run(e, evs).frameSize == e.frameSize
    decreases |evs|
  {
    if evs != [] {
      var init := evs[..|evs| - 1];
      assert forall ev :: ev in init ==> ev in evs;
      RunFrameSize(e, init);
      assert evs[|evs| - 1] in evs;
    }
  }

  lemma TailFrameSize(e: Engine, p: Parameters, swapped: bool, ws: Size)
    ensures Run(e, HeadlessTail(e, p, swapped, ws)).frameSize == (if swapped then ws else e.frameSize)
  {
    var rest := AnimationCommit(p) + [CameraCommit] + HeadLightEvents(e, p) + RenderCall(p);
    assert HeadlessTail(e, p, swapped, ws) == Resync(swapped, ws) + rest;
    assert forall ev :: ev in rest ==> !ev.Reshape?;
    RunAppend(e, Resync(swapped, ws), rest);
    if swapped {
      RunSnoc(e, [], Reshape(ws));
      RunSnoc(e, [Reshape(ws)], PreRender);
      assert [Reshape(ws)] + [PreRender] == [Reshape(ws), PreRender];
    }
    RunFrameSize(Run(e, Resync(swapped, ws)), rest);
  }
}
