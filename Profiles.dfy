// The two sample render profiles: which passes they create, how MapInputs wires each
// pass's inputs to other passes' outputs, and the order in which Draw runs the passes.

module Profiles {
  import opened Outcomes
  import opened Rendering
  import Scenes
  import Cameras

  /** `p` is a pass of `kind` whose outputs exist and number as its kind exposes. */
  ghost predicate Exposes(p: BaseRenderer, kind: PassKind)
  {
    p.kind == kind && p.outputTargets.Some? && |p.outputTargets.value| == OutputCount(kind)
  }

  /** `p` exposes the outputs of `kind`, and all of them are recorded in `producers` as
      made by `p`. */
  ghost predicate Produces(p: BaseRenderer, kind: PassKind, producers: map<RenderTarget, BaseRenderer>)
  {
    Exposes(p, kind)
    && forall i :: 0 <= i < |p.outputTargets.value| ==>
         p.outputTargets.value[i] in producers && producers[p.outputTargets.value[i]] == p
  }

  /** Every input of a pass in `order` that some pass produced comes from a pass that
      runs earlier in `order`. */
  ghost predicate ProducersFirst(order: seq<BaseRenderer>, producers: map<RenderTarget, BaseRenderer>)
    reads set p | p in order
  {
    forall i, a ::
      (0 <= i < |order| && order[i].inputTargets.Some? && 0 <= a < |order[i].inputTargets.value|
       && order[i].inputTargets.value[a] in producers) ==>
        producers[order[i].inputTargets.value[a]] in order[..i]
  }

  /** `p` was last given `targets` by SetInputs, which bound "target_i" to targets[i]. */
  ghost predicate BoundTo(p: BaseRenderer, targets: seq<RenderTarget>)
    reads p
  {
    p.inputTargets == Some(targets) && p.renderInputs == InputMap(targets, p)
  }

  ghost predicate SeesScene(p: BaseRenderer, scene: Scenes.Scene?, camera: Cameras.Camera?)
    reads p
  {
    p.scene == scene && p.camera == camera
  }

  /** The factory constructs, under the class name of `kind`, a pass of `kind`. */
  ghost predicate Constructs(types: map<string, AssemblyType>, kind: PassKind)
  {
    ClassName(kind) in types && types[ClassName(kind)].pass == Some(kind)
  }

  /** The factory constructs each of the ten passes of the light pre-pass profile. */
  ghost predicate ConstructsLightPrePass(types: map<string, AssemblyType>)
  {
    Constructs(types, SmallGBuffer) && Constructs(types, Light) && Constructs(types, Forward)
    && Constructs(types, Composite) && Constructs(types, Blur) && Constructs(types, Copy)
    && Constructs(types, SSAO) && Constructs(types, DepthOfField) && Constructs(types, Bloom)
    && Constructs(types, DLAA)
  }

  /** The engine's own factory registry constructs them. */
  lemma EngineConstructsLightPrePass()
    ensures ConstructsLightPrePass(Registry(EngineTypes))
  {
    EngineRegistry();
  }

  /** A new pass of `kind` whose outputs are recorded as its own in the extended map. */
  method Produce(profile: RenderProfile, kind: PassKind, ghost producers: map<RenderTarget, BaseRenderer>)
    returns (pass: BaseRenderer, ghost extended: map<RenderTarget, BaseRenderer>)
    requires kind != ReconstructDepth && kind != PSShadow
    modifies profile
    ensures fresh(pass)
    ensures Produces(pass, kind, extended)
    ensures forall t :: t in producers ==> t in extended && extended[t] == producers[t]
    ensures profile.debugTargets == old(profile.debugTargets) && profile.output == old(profile.output)
  {
    ghost var before := profile.renderTaskTargets;
    pass := CreatePass(profile, kind);
    ghost var added := profile.renderTaskTargets[|before|..];
    PassOutputsAreOwnTargets(kind, profile.backBufferWidth, profile.backBufferHeight, added);
    assert forall t :: t in pass.outputTargets.value ==> t in added && fresh(t);
    extended := producers + map t | t in pass.outputTargets.value :: pass;
  }

  /** RendererFactory.Create by the pass's class name, on the engine's own factory. */
  method ProduceNamed(profile: RenderProfile, kind: PassKind, ghost engine: map<string, AssemblyType>,
                      ghost producers: map<RenderTarget, BaseRenderer>)
    returns (pass: BaseRenderer, ghost extended: map<RenderTarget, BaseRenderer>)
    requires kind != ReconstructDepth && kind != PSShadow
    requires profile.rendererFactory.types == engine && Constructs(engine, kind)
    modifies profile
    ensures fresh(pass)
    ensures Produces(pass, kind, extended)
    ensures forall t :: t in producers ==> t in extended && extended[t] == producers[t]
    ensures profile.debugTargets == old(profile.debugTargets) && profile.output == old(profile.output)
  {
    ghost var before := profile.renderTaskTargets;
    var r := profile.rendererFactory.Create(ClassName(kind), profile);
    pass := r.value;
    ghost var added := profile.renderTaskTargets[|before|..];
    PassOutputsAreOwnTargets(kind, profile.backBufferWidth, profile.backBufferHeight, added);
    assert forall t :: t in pass.outputTargets.value ==> t in added && fresh(t);
    extended := producers + map t | t in pass.outputTargets.value :: pass;
  }

  /** The ten renderer fields of LightPrePassRenderer, which Initialize replaces together. */
  datatype LightPrePassPasses = LightPrePassPasses(
    smallGBuffer: BaseRenderer, lights: BaseRenderer, diffuse: BaseRenderer,
    copy: BaseRenderer, composite: BaseRenderer, blur: BaseRenderer, bloom: BaseRenderer,
    dof: BaseRenderer, dlaa: BaseRenderer, ssao: BaseRenderer)
  {
    /** Each field holds a pass of the class it is created as, with that class's outputs. */
    ghost predicate Shaped()
    {
      Exposes(smallGBuffer, SmallGBuffer) && Exposes(lights, Light) && Exposes(diffuse, Forward)
      && Exposes(copy, Copy) && Exposes(composite, Composite) && Exposes(blur, Blur)
      && Exposes(bloom, Bloom) && Exposes(dof, DepthOfField) && Exposes(dlaa, DLAA)
      && Exposes(ssao, SSAO)
    }

    /** ... and every output is recorded in `producers` as made by its pass. */
    ghost predicate Recorded(producers: map<RenderTarget, BaseRenderer>)
    {
      Produces(smallGBuffer, SmallGBuffer, producers) && Produces(lights, Light, producers)
      && Produces(diffuse, Forward, producers) && Produces(copy, Copy, producers)
      && Produces(composite, Composite, producers) && Produces(blur, Blur, producers)
      && Produces(bloom, Bloom, producers) && Produces(dof, DepthOfField, producers)
      && Produces(dlaa, DLAA, producers) && Produces(ssao, SSAO, producers)
    }

    /** The bindings MapInputs leaves: the forward pass and the small G-buffer draw the
        scene only; every other pass reads outputs of other passes. */
    ghost predicate Wired(scene: Scenes.Scene?, camera: Cameras.Camera?)
      requires Shaped()
      reads smallGBuffer, lights, diffuse, copy, composite, blur, bloom, dof, dlaa, ssao
    {
      SceneWired(scene, camera) && PostWired(scene, camera)
    }

    /** The bindings of the first five SetInputs calls of MapInputs. */
    ghost predicate SceneWired(scene: Scenes.Scene?, camera: Cameras.Camera?)
      requires Shaped()
      reads smallGBuffer, lights, diffuse, composite, dlaa
    {
      GBufferWired(scene, camera) && CompositeWired(scene, camera)
    }

    /** The small G-buffer and the forward pass draw the scene only; the light pass reads
        the G-buffer. */
    ghost predicate GBufferWired(scene: Scenes.Scene?, camera: Cameras.Camera?)
      requires Shaped()
      reads smallGBuffer, lights, diffuse
    {
      smallGBuffer.inputTargets == None && SeesScene(smallGBuffer, scene, camera)
      && diffuse.inputTargets == None && SeesScene(diffuse, scene, camera)
      && BoundTo(lights, smallGBuffer.outputTargets.value) && SeesScene(lights, scene, camera)
    }

    /** Composite reads the forward colour, the light map and the ambient occlusion; DLAA
        reads the composite. */
    ghost predicate CompositeWired(scene: Scenes.Scene?, camera: Cameras.Camera?)
      requires Shaped()
      reads composite, dlaa
    {
      BoundTo(composite, CompositeInputs())
      && SeesScene(composite, scene, camera)
      && BoundTo(dlaa, composite.outputTargets.value)
    }

    /** The bindings of the last five SetInputs calls of MapInputs. */
    ghost predicate PostWired(scene: Scenes.Scene?, camera: Cameras.Camera?)
      requires Shaped()
      reads copy, blur, dof, ssao, bloom
    {
      CopyWired() && LateWired(scene, camera)
    }

    /** Copy reads DLAA, blur reads the copy, depth of field reads both and the depth. */
    ghost predicate CopyWired()
      requires Shaped()
      reads copy, blur, dof
    {
      BoundTo(copy, dlaa.outputTargets.value)
      && BoundTo(blur, copy.outputTargets.value)
      && BoundTo(dof, DofInputs())
    }

    /** SSAO reads the G-buffer and sees the scene; bloom reads DLAA. */
    ghost predicate LateWired(scene: Scenes.Scene?, camera: Cameras.Camera?)
      requires Shaped()
      reads ssao, bloom
    {
      BoundTo(ssao, smallGBuffer.outputTargets.value) && SeesScene(ssao, scene, camera)
      && BoundTo(bloom, dlaa.outputTargets.value)
    }

    /** The first five SetInputs calls of MapInputs. */
    method WireScene(scene: Scenes.Scene?, camera: Cameras.Camera?)
      requires Shaped()
      modifies smallGBuffer, lights, diffuse, composite, dlaa
      ensures SceneWired(scene, camera)
      ensures smallGBuffer.renderInputs == old(smallGBuffer.renderInputs)
      ensures diffuse.renderInputs == old(diffuse.renderInputs)
    {
      assert smallGBuffer != composite && smallGBuffer != dlaa && lights != composite
        && lights != dlaa && diffuse != composite && diffuse != dlaa;
      WireGBuffer(scene, camera);
      WireComposite(scene, camera);
    }

    method WireGBuffer(scene: Scenes.Scene?, camera: Cameras.Camera?)
      requires Shaped()
      modifies smallGBuffer, lights, diffuse
      ensures GBufferWired(scene, camera)
      ensures smallGBuffer.renderInputs == old(smallGBuffer.renderInputs)
      ensures diffuse.renderInputs == old(diffuse.renderInputs)
    {
      assert smallGBuffer != diffuse && smallGBuffer != lights && diffuse != lights;
      smallGBuffer.SetSceneInputs(scene, camera, None);
      diffuse.SetSceneInputs(scene, camera, None);
      lights.SetSceneInputs(scene, camera, smallGBuffer.outputTargets);
    }

    method WireComposite(scene: Scenes.Scene?, camera: Cameras.Camera?)
      requires Shaped()
      modifies composite, dlaa
      ensures CompositeWired(scene, camera)
    {
      assert composite != dlaa;
      composite.SetSceneInputs(scene, camera, Some(CompositeInputs()));
      dlaa.SetInputs(composite.outputTargets);
    }

    /** The last five SetInputs calls of MapInputs. */
    method WirePost(scene: Scenes.Scene?, camera: Cameras.Camera?)
      requires Shaped()
      modifies copy, blur, dof, ssao, bloom
      ensures PostWired(scene, camera)
    {
      assert copy != ssao && copy != bloom && blur != ssao && blur != bloom
        && dof != ssao && dof != bloom;
      WireCopy();
      WireLate(scene, camera);
    }

    method WireCopy()
      requires Shaped()
      modifies copy, blur, dof
      ensures CopyWired()
    {
      assert copy != blur && copy != dof && blur != dof;
      copy.SetInputs(dlaa.outputTargets);
      blur.SetInputs(copy.outputTargets);
      dof.SetInputs(Some(DofInputs()));
    }

    method WireLate(scene: Scenes.Scene?, camera: Cameras.Camera?)
      requires Shaped()
      modifies ssao, bloom
      ensures LateWired(scene, camera)
    {
      assert ssao != bloom;
      ssao.SetSceneInputs(scene, camera, smallGBuffer.outputTargets);
      bloom.SetInputs(dlaa.outputTargets);
    }

    /** The ten SetInputs calls of MapInputs. */
    method Wire(scene: Scenes.Scene?, camera: Cameras.Camera?)
      requires Shaped()
      modifies smallGBuffer, lights, diffuse, copy, composite, blur, bloom, dof, dlaa, ssao
      ensures Wired(scene, camera)
      ensures smallGBuffer.renderInputs == old(smallGBuffer.renderInputs)
      ensures diffuse.renderInputs == old(diffuse.renderInputs)
    {
      assert smallGBuffer != copy && smallGBuffer != blur && smallGBuffer != dof
        && smallGBuffer != ssao && smallGBuffer != bloom;
      assert lights != copy && lights != blur && lights != dof && lights != ssao && lights != bloom;
      assert diffuse != copy && diffuse != blur && diffuse != dof && diffuse != ssao && diffuse != bloom;
      assert composite != copy && composite != blur && composite != dof
        && composite != ssao && composite != bloom;
      assert dlaa != copy && dlaa != blur && dlaa != dof && dlaa != ssao && dlaa != bloom;
      WireScene(scene, camera);
      WirePost(scene, camera);
    }

    /** The input array and the render-input map of each of the ten passes. */
    ghost function Bindings(): seq<(Option<seq<RenderTarget>>, map<string, RenderInput>)>
      reads smallGBuffer, lights, diffuse, copy, composite, blur, bloom, dof, dlaa, ssao
    {
      [(smallGBuffer.inputTargets, smallGBuffer.renderInputs), (lights.inputTargets, lights.renderInputs),
       (diffuse.inputTargets, diffuse.renderInputs), (copy.inputTargets, copy.renderInputs),
       (composite.inputTargets, composite.renderInputs), (blur.inputTargets, blur.renderInputs),
       (bloom.inputTargets, bloom.renderInputs), (dof.inputTargets, dof.renderInputs),
       (dlaa.inputTargets, dlaa.renderInputs), (ssao.inputTargets, ssao.renderInputs)]
    }

    /** The order Draw runs the passes in. */
    function DrawOrder(): seq<BaseRenderer>
    {
      [diffuse, smallGBuffer, lights, ssao, composite, dlaa, bloom]
    }

    /** Composite's inputs: the forward colour, the light map and the ambient occlusion. */
    function CompositeInputs(): seq<RenderTarget>
      requires Shaped()
    {
      [diffuse.outputTargets.value[0], lights.outputTargets.value[0], ssao.outputTargets.value[0]]
    }

    /** Depth of field's inputs: the antialiased image, its copy and the G-buffer's depth. */
    function DofInputs(): seq<RenderTarget>
      requires Shaped()
    {
      [dlaa.outputTargets.value[0], copy.outputTargets.value[0], smallGBuffer.outputTargets.value[1]]
    }

    /** The four targets MapInputs lists for debugging: the forward colour, the small
        G-buffer's first target and the light pass's first two. */
    function DebugTargets(): seq<RenderTarget>
      requires Shaped()
    {
      [diffuse.outputTargets.value[0], smallGBuffer.outputTargets.value[0],
       lights.outputTargets.value[0], lights.outputTargets.value[1]]
    }

    /** The target Draw shows: bloom's first output. */
    function Shown(): RenderTarget
      requires Shaped()
    {
      bloom.outputTargets.value[0]
    }

    /** The seven pass draws of Draw, in order. */
    method DrawFrame() returns (drawn: seq<BaseRenderer>)
      ensures drawn == DrawOrder()
    {
      drawn := [];
      drawn := DrawPass(drawn, diffuse);
      drawn := DrawPass(drawn, smallGBuffer);
      drawn := DrawPass(drawn, lights);
      drawn := DrawPass(drawn, ssao);
      drawn := DrawPass(drawn, composite);
      drawn := DrawPass(drawn, dlaa);
      drawn := DrawPass(drawn, bloom);
    }
  }

  /** The light pre-pass profile: a small G-buffer and a light map, a forward colour pass,
      then compositing and post effects. */
  class LightPrePassRenderer {
    const profile: RenderProfile
    /** The factory's registry, which names every pass class. */
    ghost const engine: map<string, AssemblyType>
    var passes: LightPrePassPasses
    /** Which pass allocated each output target. */
    ghost var producers: map<RenderTarget, BaseRenderer>

    ghost predicate Valid()
      reads this, profile.rendererFactory
    {
      profile.rendererFactory.types == engine && ConstructsLightPrePass(engine)
      && passes.Shaped() && passes.Recorded(producers)
    }

    /** The constructor: a profile on the engine's factory, then Initialize. */
    constructor (factory: RendererFactory, backBufferWidth: Positive, backBufferHeight: Positive)
      requires ConstructsLightPrePass(factory.types)
      ensures Valid() && fresh(profile)
      ensures profile.debugTargets == [] && profile.output == null
    {
      var p := new RenderProfile(backBufferWidth, backBufferHeight, factory);
      var ps;
      ghost var prod;
      ps, prod := CreateLightPrePassPasses(p, factory.types);
      engine := factory.types;
      profile := p;
      passes := ps;
      producers := prod;
    }

    /** Initialize: clear the profile's lists, then create the ten passes through the
        factory by class name. */
    method Initialize()
      requires profile.rendererFactory.types == engine && ConstructsLightPrePass(engine)
      modifies this, profile
      ensures Valid()
      ensures profile.debugTargets == [] && profile.output == old(profile.output)
    {
      profile.Initialize();
      passes, producers := CreateLightPrePassPasses(profile, engine);
    }

    /** MapInputs: reset the debug list, wire every pass to the outputs it reads, then
        list four targets for debugging. */
    method MapInputs(scene: Scenes.Scene?, camera: Cameras.Camera?)
      requires passes.Shaped()
      modifies profile, passes.smallGBuffer, passes.lights, passes.diffuse, passes.copy
      modifies passes.composite, passes.blur, passes.bloom, passes.dof, passes.dlaa, passes.ssao
      ensures passes.Wired(scene, camera)
      ensures old(passes.Wired(scene, camera)) ==> passes.Bindings() == old(passes.Bindings())
      ensures profile.debugTargets == passes.DebugTargets()
      ensures profile.renderTaskTargets == old(profile.renderTaskTargets)
      ensures profile.output == old(profile.output)
    {
      var p := passes;
      // debugTargets.Clear() and four Adds (after the wiring, which does not read them)
      profile.debugTargets := p.DebugTargets();
      p.Wire(scene, camera);
    }

    /** Draw: run the seven passes of the frame, returned in the order they ran, and
        show bloom's first output. */
    method Draw() returns (drawn: seq<BaseRenderer>)
      requires passes.Shaped()
      modifies profile
      ensures drawn == passes.DrawOrder()
      ensures profile.output == passes.Shown()
      ensures profile.debugTargets == old(profile.debugTargets)
    {
      drawn := passes.DrawFrame();
      profile.output := passes.Shown();
    }

    /** After MapInputs, every pass Draw runs reads only outputs of passes already run in
        the same frame. */
    lemma DrawRunsProducersFirst(scene: Scenes.Scene?, camera: Cameras.Camera?)
      requires Valid() && passes.Wired(scene, camera)
      ensures ProducersFirst(passes.DrawOrder(), producers)
    {
      var p := passes;
      var order := p.DrawOrder();
      forall i, a | 0 <= i < |order| && order[i].inputTargets.Some?
        && 0 <= a < |order[i].inputTargets.value| && order[i].inputTargets.value[a] in producers
        ensures producers[order[i].inputTargets.value[a]] in order[..i]
      {
        var t := order[i].inputTargets.value[a];
        assert order[i] in {p.lights, p.ssao, p.composite, p.dlaa, p.bloom};
        if order[i] == p.composite {
          assert t in [p.diffuse.outputTargets.value[0], p.lights.outputTargets.value[0],
                       p.ssao.outputTargets.value[0]];
          assert order[..i] == [p.diffuse, p.smallGBuffer, p.lights, p.ssao];
        } else if order[i] == p.dlaa {
          assert producers[t] == p.composite && order[..i][4] == p.composite;
        } else if order[i] == p.bloom {
          assert producers[t] == p.dlaa && order[..i][5] == p.dlaa;
        } else {
          assert producers[t] == p.smallGBuffer && order[..i][1] == p.smallGBuffer;
        }
      }
    }
  }

  /** One pass's Draw; the GPU work is not modelled, only that the pass ran after those
      in `drawn`. */
  method DrawPass(drawn: seq<BaseRenderer>, pass: BaseRenderer) returns (ran: seq<BaseRenderer>)
    ensures ran == drawn + [pass]
  {
    ran := drawn + [pass];
  }

  /** The body of LightPrePassRenderer.Initialize after the base call: the factory
      creates each pass by class name, in this order. */
  method CreateLightPrePassPasses(profile: RenderProfile, ghost engine: map<string, AssemblyType>)
    returns (passes: LightPrePassPasses, ghost producers: map<RenderTarget, BaseRenderer>)
    requires profile.rendererFactory.types == engine && ConstructsLightPrePass(engine)
    modifies profile
    ensures passes.Shaped() && passes.Recorded(producers)
    ensures profile.debugTargets == old(profile.debugTargets) && profile.output == old(profile.output)
  {
    var smallGBuffer, lights, diffuse, composite, blur;
    ghost var first;
    smallGBuffer, lights, diffuse, composite, blur, first := CreateScenePasses(profile, engine);
    var copy, ssao, dof, bloom, dlaa;
    copy, ssao, dof, bloom, dlaa, producers := CreatePostPasses(profile, engine, first);
    passes := LightPrePassPasses(smallGBuffer, lights, diffuse, copy, composite, blur, bloom,
                                 dof, dlaa, ssao);
    ProducesKept(smallGBuffer, SmallGBuffer, first, producers);
    ProducesKept(lights, Light, first, producers);
    ProducesKept(diffuse, Forward, first, producers);
    ProducesKept(composite, Composite, first, producers);
    ProducesKept(blur, Blur, first, producers);
  }

  /** Recording more passes keeps what was recorded. */
  lemma ProducesKept(p: BaseRenderer, kind: PassKind, producers: map<RenderTarget, BaseRenderer>,
                     extended: map<RenderTarget, BaseRenderer>)
    requires Produces(p, kind, producers)
    requires forall t :: t in producers ==> t in extended && extended[t] == producers[t]
    ensures Produces(p, kind, extended)
  {
  }

  /** The first five Create calls of LightPrePassRenderer.Initialize. */
  method CreateScenePasses(profile: RenderProfile, ghost engine: map<string, AssemblyType>)
    returns (smallGBuffer: BaseRenderer, lights: BaseRenderer, diffuse: BaseRenderer,
             composite: BaseRenderer, blur: BaseRenderer, ghost producers: map<RenderTarget, BaseRenderer>)
    requires profile.rendererFactory.types == engine && ConstructsLightPrePass(engine)
    modifies profile
    ensures Produces(smallGBuffer, SmallGBuffer, producers) && Produces(lights, Light, producers)
    ensures Produces(diffuse, Forward, producers) && Produces(composite, Composite, producers)
    ensures Produces(blur, Blur, producers)
    ensures profile.debugTargets == old(profile.debugTargets) && profile.output == old(profile.output)
  {
    smallGBuffer, producers := ProduceNamed(profile, SmallGBuffer, engine, map[]);
    lights, producers := ProduceNamed(profile, Light, engine, producers);
    diffuse, producers := ProduceNamed(profile, Forward, engine, producers);
    composite, producers := ProduceNamed(profile, Composite, engine, producers);
    blur, producers := ProduceNamed(profile, Blur, engine, producers);
  }

  /** The last five Create calls of LightPrePassRenderer.Initialize. */
  method CreatePostPasses(profile: RenderProfile, ghost engine: map<string, AssemblyType>,
                          ghost producers: map<RenderTarget, BaseRenderer>)
    returns (copy: BaseRenderer, ssao: BaseRenderer, dof: BaseRenderer, bloom: BaseRenderer,
             dlaa: BaseRenderer, ghost extended: map<RenderTarget, BaseRenderer>)
    requires profile.rendererFactory.types == engine && ConstructsLightPrePass(engine)
    modifies profile
    ensures Produces(copy, Copy, extended) && Produces(ssao, SSAO, extended)
    ensures Produces(dof, DepthOfField, extended) && Produces(bloom, Bloom, extended)
    ensures Produces(dlaa, DLAA, extended)
    ensures forall t :: t in producers ==> t in extended && extended[t] == producers[t]
    ensures profile.debugTargets == old(profile.debugTargets) && profile.output == old(profile.output)
  {
    copy, extended := ProduceNamed(profile, Copy, engine, producers);
    ssao, extended := ProduceNamed(profile, SSAO, engine, extended);
    dof, extended := ProduceNamed(profile, DepthOfField, engine, extended);
    bloom, extended := ProduceNamed(profile, Bloom, engine, extended);
    dlaa, extended := ProduceNamed(profile, DLAA, engine, extended);
  }

  /** The ten renderer fields of DeferredRenderer, which Initialize replaces together. */
  datatype DeferredPasses = DeferredPasses(
    gBuffer: BaseRenderer, lights: BaseRenderer, diffuse: BaseRenderer,
    composite: BaseRenderer, blur: BaseRenderer, bloom: BaseRenderer, copy: BaseRenderer,
    dof: BaseRenderer, dlaa: BaseRenderer, ssao: BaseRenderer)
  {
    /** Each field holds a pass of the class it is created as, with that class's outputs. */
    ghost predicate Shaped()
    {
      Exposes(gBuffer, GBuffer) && Exposes(lights, Light) && Exposes(diffuse, Forward)
      && Exposes(composite, Composite) && Exposes(blur, Blur) && Exposes(bloom, Bloom)
      && Exposes(copy, Copy) && Exposes(dof, DepthOfField) && Exposes(dlaa, DLAA)
      && Exposes(ssao, SSAO)
    }

    /** ... and every output is recorded in `producers` as made by its pass. */
    ghost predicate Recorded(producers: map<RenderTarget, BaseRenderer>)
    {
      Produces(gBuffer, GBuffer, producers) && Produces(lights, Light, producers)
      && Produces(diffuse, Forward, producers) && Produces(composite, Composite, producers)
      && Produces(blur, Blur, producers) && Produces(bloom, Bloom, producers)
      && Produces(copy, Copy, producers) && Produces(dof, DepthOfField, producers)
      && Produces(dlaa, DLAA, producers) && Produces(ssao, SSAO, producers)
    }

    /** The bindings MapInputs leaves on the eight passes it wires (the forward pass and
        depth of field are never wired). */
    ghost predicate Wired(scene: Scenes.Scene?, camera: Cameras.Camera?)
      requires Shaped()
      reads gBuffer, lights, composite, dlaa, copy, blur, ssao, bloom
    {
      LightsWired(scene, camera) && CompositeWired(scene, camera) && CopiesWired()
      && LateWired(scene, camera)
    }

    /** The G-buffer draws the scene only; the light pass reads the G-buffer. */
    ghost predicate LightsWired(scene: Scenes.Scene?, camera: Cameras.Camera?)
      requires Shaped()
      reads gBuffer, lights
    {
      gBuffer.inputTargets == None && SeesScene(gBuffer, scene, camera)
      && BoundTo(lights, gBuffer.outputTargets.value) && SeesScene(lights, scene, camera)
    }

    /** Composite reads the G-buffer's third target, the light map and the ambient
        occlusion; DLAA reads the composite. */
    ghost predicate CompositeWired(scene: Scenes.Scene?, camera: Cameras.Camera?)
      requires Shaped()
      reads composite, dlaa
    {
      BoundTo(composite, CompositeInputs()) && SeesScene(composite, scene, camera)
      && BoundTo(dlaa, composite.outputTargets.value)
    }

    /** Copy and blur both read DLAA. */
    ghost predicate CopiesWired()
      requires Shaped()
      reads copy, blur
    {
      BoundTo(copy, dlaa.outputTargets.value) && BoundTo(blur, dlaa.outputTargets.value)
    }

    /** SSAO reads depth, normals and the light pass's fourth output; bloom reads the
        composite. */
    ghost predicate LateWired(scene: Scenes.Scene?, camera: Cameras.Camera?)
      requires Shaped()
      reads ssao, bloom
    {
      BoundTo(ssao, SsaoInputs()) && SeesScene(ssao, scene, camera)
      && BoundTo(bloom, composite.outputTargets.value)
    }

    /** Composite's inputs: the G-buffer's third target, the light map, SSAO's output. */
    function CompositeInputs(): seq<RenderTarget>
      requires Shaped()
    {
      [gBuffer.outputTargets.value[2], lights.outputTargets.value[0], ssao.outputTargets.value[0]]
    }

    /** SSAO's inputs: the G-buffer's first two targets and the light pass's fourth. */
    function SsaoInputs(): seq<RenderTarget>
      requires Shaped()
    {
      [gBuffer.outputTargets.value[0], gBuffer.outputTargets.value[1], lights.outputTargets.value[3]]
    }

    /** The eight SetInputs calls of MapInputs. */
    method Wire(scene: Scenes.Scene?, camera: Cameras.Camera?)
      requires Shaped()
      modifies gBuffer, lights, composite, dlaa, copy, blur, ssao, bloom
      ensures Wired(scene, camera)
      ensures gBuffer.renderInputs == old(gBuffer.renderInputs)
    {
      assert gBuffer != composite && gBuffer != dlaa && lights != composite && lights != dlaa;
      assert gBuffer != copy && gBuffer != blur && gBuffer != ssao && gBuffer != bloom;
      assert lights != copy && lights != blur && lights != ssao && lights != bloom;
      assert composite != copy && composite != blur && composite != ssao && composite != bloom;
      assert dlaa != copy && dlaa != blur && dlaa != ssao && dlaa != bloom;
      assert copy != ssao && copy != bloom && blur != ssao && blur != bloom;
      WireLights(scene, camera);
      WireComposite(scene, camera);
      WireCopies();
      WireLate(scene, camera);
    }

    method WireLights(scene: Scenes.Scene?, camera: Cameras.Camera?)
      requires Shaped()
      modifies gBuffer, lights
      ensures LightsWired(scene, camera)
      ensures gBuffer.renderInputs == old(gBuffer.renderInputs)
    {
      assert gBuffer != lights;
      gBuffer.SetSceneInputs(scene, camera, None);
      lights.SetSceneInputs(scene, camera, gBuffer.outputTargets);
    }

    method WireComposite(scene: Scenes.Scene?, camera: Cameras.Camera?)
      requires Shaped()
      modifies composite, dlaa
      ensures CompositeWired(scene, camera)
    {
      assert composite != dlaa;
      composite.SetSceneInputs(scene, camera, Some(CompositeInputs()));
      dlaa.SetInputs(composite.outputTargets);
    }

    method WireCopies()
      requires Shaped()
      modifies copy, blur
      ensures CopiesWired()
    {
      assert copy != blur;
      copy.SetInputs(dlaa.outputTargets);
      blur.SetInputs(dlaa.outputTargets);
    }

    method WireLate(scene: Scenes.Scene?, camera: Cameras.Camera?)
      requires Shaped()
      modifies ssao, bloom
      ensures LateWired(scene, camera)
    {
      assert ssao != bloom;
      ssao.SetSceneInputs(scene, camera, Some(SsaoInputs()));
      bloom.SetInputs(composite.outputTargets);
    }

    /** The four targets MapInputs lists for debugging: the G-buffer's three and the light
        map. */
    function DebugTargets(): seq<RenderTarget>
      requires Shaped()
    {
      [gBuffer.outputTargets.value[0], gBuffer.outputTargets.value[1],
       gBuffer.outputTargets.value[2], lights.outputTargets.value[0]]
    }

    /** The input array and the render-input map of each of the ten passes. */
    ghost function Bindings(): seq<(Option<seq<RenderTarget>>, map<string, RenderInput>)>
      reads gBuffer, lights, diffuse, composite, blur, bloom, copy, dof, dlaa, ssao
    {
      [(gBuffer.inputTargets, gBuffer.renderInputs), (lights.inputTargets, lights.renderInputs),
       (diffuse.inputTargets, diffuse.renderInputs), (composite.inputTargets, composite.renderInputs),
       (blur.inputTargets, blur.renderInputs), (bloom.inputTargets, bloom.renderInputs),
       (copy.inputTargets, copy.renderInputs), (dof.inputTargets, dof.renderInputs),
       (dlaa.inputTargets, dlaa.renderInputs), (ssao.inputTargets, ssao.renderInputs)]
    }

    /** The order Draw runs the passes in. */
    function DrawOrder(): seq<BaseRenderer>
    {
      [gBuffer, lights, composite, dlaa, ssao]
    }

    /** The same five passes with SSAO moved ahead of the composite that reads it. */
    function DependencyOrder(): seq<BaseRenderer>
    {
      [gBuffer, lights, ssao, composite, dlaa]
    }

    /** The target Draw shows: SSAO's first output. */
    function Shown(): RenderTarget
      requires Shaped()
    {
      ssao.outputTargets.value[0]
    }

    /** The five pass draws of Draw, in order. */
    method DrawFrame() returns (drawn: seq<BaseRenderer>)
      ensures drawn == DrawOrder()
    {
      drawn := [];
      drawn := DrawPass(drawn, gBuffer);
      drawn := DrawPass(drawn, lights);
      drawn := DrawPass(drawn, composite);
      drawn := DrawPass(drawn, dlaa);
      drawn := DrawPass(drawn, ssao);
    }

    /** The same draws with SSAO first among the passes that read it. */
    method DrawFrameInDependencyOrder() returns (drawn: seq<BaseRenderer>)
      ensures drawn == DependencyOrder()
    {
      drawn := [];
      drawn := DrawPass(drawn, gBuffer);
      drawn := DrawPass(drawn, lights);
      drawn := DrawPass(drawn, ssao);
      drawn := DrawPass(drawn, composite);
      drawn := DrawPass(drawn, dlaa);
    }
  }

  /** The deferred profile: a full G-buffer and a light map, compositing with ambient
      occlusion, then antialiasing. */
  class DeferredRenderer {
    const profile: RenderProfile
    var passes: DeferredPasses
    /** Which pass allocated each output target. */
    ghost var producers: map<RenderTarget, BaseRenderer>

    ghost predicate Valid()
      reads this
    {
      passes.Shaped() && passes.Recorded(producers)
    }

    /** The constructor: a profile, then Initialize. */
    constructor (factory: RendererFactory, backBufferWidth: Positive, backBufferHeight: Positive)
      ensures Valid() && fresh(profile)
      ensures profile.debugTargets == [] && profile.output == null
    {
      var p := new RenderProfile(backBufferWidth, backBufferHeight, factory);
      var ps;
      ghost var prod;
      ps, prod := CreateDeferredPasses(p);
      profile := p;
      passes := ps;
      producers := prod;
    }

    /** Initialize: clear the profile's lists, then construct the ten passes. */
    method Initialize()
      modifies this, profile
      ensures Valid()
      ensures profile.debugTargets == [] && profile.output == old(profile.output)
    {
      profile.Initialize();
      passes, producers := CreateDeferredPasses(profile);
    }

    /** MapInputs: reset the debug list, wire eight passes to the outputs they read, then
        list four targets for debugging. */
    method MapInputs(scene: Scenes.Scene?, camera: Cameras.Camera?)
      requires passes.Shaped()
      modifies profile, passes.gBuffer, passes.lights, passes.composite, passes.dlaa
      modifies passes.copy, passes.blur, passes.ssao, passes.bloom
      ensures passes.Wired(scene, camera)
      ensures old(passes.Wired(scene, camera)) ==> passes.Bindings() == old(passes.Bindings())
      ensures profile.debugTargets == passes.DebugTargets()
      ensures profile.renderTaskTargets == old(profile.renderTaskTargets)
      ensures profile.output == old(profile.output)
    {
      var p := passes;
      // debugTargets.Clear() and four Adds (after the wiring, which does not read them)
      profile.debugTargets := p.DebugTargets();
      p.Wire(scene, camera);
    }

    /** Draw: run five passes, returned in the order they ran, and show SSAO's first
        output. */
    method Draw() returns (drawn: seq<BaseRenderer>)
      requires passes.Shaped()
      modifies profile
      ensures drawn == passes.DrawOrder()
      ensures profile.output == passes.Shown()
      ensures profile.debugTargets == old(profile.debugTargets)
    {
      drawn := passes.DrawFrame();
      profile.output := passes.Shown();
    }

    /** After MapInputs, Draw runs the composite before the SSAO pass whose output it reads,
        so the composite sees the ambient occlusion of the previous frame. */
    lemma DrawReadsSsaoBeforeItRuns(scene: Scenes.Scene?, camera: Cameras.Camera?)
      requires Valid() && passes.Wired(scene, camera)
      ensures !ProducersFirst(passes.DrawOrder(), producers)
    {
      var p := passes;
      var order := p.DrawOrder();
      var t := order[2].inputTargets.value[2];
      assert t == p.ssao.outputTargets.value[0] && producers[t] == p.ssao;
      assert order[..2] == [p.gBuffer, p.lights];
    }

    /** Draw with SSAO moved ahead of the composite; output as Draw. */
    method DrawInDependencyOrder() returns (drawn: seq<BaseRenderer>)
      requires passes.Shaped()
      modifies profile
      ensures drawn == passes.DependencyOrder()
      ensures profile.output == passes.Shown()
      ensures profile.debugTargets == old(profile.debugTargets)
    {
      drawn := passes.DrawFrameInDependencyOrder();
      profile.output := passes.Shown();
    }

    /** In that order every pass reads only outputs of passes already run in the frame. */
    lemma DependencyOrderRunsProducersFirst(scene: Scenes.Scene?, camera: Cameras.Camera?)
      requires Valid() && passes.Wired(scene, camera)
      ensures ProducersFirst(passes.DependencyOrder(), producers)
    {
      var p := passes;
      var order := p.DependencyOrder();
      forall i, a | 0 <= i < |order| && order[i].inputTargets.Some?
        && 0 <= a < |order[i].inputTargets.value| && order[i].inputTargets.value[a] in producers
        ensures producers[order[i].inputTargets.value[a]] in order[..i]
      {
        var t := order[i].inputTargets.value[a];
        assert order[i] in {p.lights, p.ssao, p.composite, p.dlaa};
        if order[i] == p.composite {
          assert t in p.CompositeInputs();
          assert order[..i] == [p.gBuffer, p.lights, p.ssao];
        } else if order[i] == p.dlaa {
          assert producers[t] == p.composite && order[..i][3] == p.composite;
        } else if order[i] == p.ssao {
          assert t in p.SsaoInputs();
          assert order[..i] == [p.gBuffer, p.lights];
        } else {
          assert producers[t] == p.gBuffer && order[..i][0] == p.gBuffer;
        }
      }
    }
  }

  /** The body of DeferredRenderer.Initialize after the base call: each pass is
      constructed directly, in this order. */
  method CreateDeferredPasses(profile: RenderProfile)
    returns (passes: DeferredPasses, ghost producers: map<RenderTarget, BaseRenderer>)
    modifies profile
    ensures passes.Shaped() && passes.Recorded(producers)
    ensures profile.debugTargets == old(profile.debugTargets) && profile.output == old(profile.output)
  {
    var gBuffer, lights, diffuse, composite, dof;
    ghost var first;
    gBuffer, lights, diffuse, composite, dof, first := CreateDeferredScenePasses(profile);
    var blur, copy, bloom, dlaa, ssao;
    blur, copy, bloom, dlaa, ssao, producers := CreateDeferredPostPasses(profile, first);
    passes := DeferredPasses(gBuffer, lights, diffuse, composite, blur, bloom, copy, dof, dlaa, ssao);
    ProducesKept(gBuffer, GBuffer, first, producers);
    ProducesKept(lights, Light, first, producers);
    ProducesKept(diffuse, Forward, first, producers);
    ProducesKept(composite, Composite, first, producers);
    ProducesKept(dof, DepthOfField, first, producers);
  }

  /** The first five constructions of DeferredRenderer.Initialize. */
  method CreateDeferredScenePasses(profile: RenderProfile)
    returns (gBuffer: BaseRenderer, lights: BaseRenderer, diffuse: BaseRenderer,
             composite: BaseRenderer, dof: BaseRenderer, ghost producers: map<RenderTarget, BaseRenderer>)
    modifies profile
    ensures Produces(gBuffer, GBuffer, producers) && Produces(lights, Light, producers)
    ensures Produces(diffuse, Forward, producers) && Produces(composite, Composite, producers)
    ensures Produces(dof, DepthOfField, producers)
    ensures profile.debugTargets == old(profile.debugTargets) && profile.output == old(profile.output)
  {
    gBuffer, producers := Produce(profile, GBuffer, map[]);
    lights, producers := Produce(profile, Light, producers);
    diffuse, producers := Produce(profile, Forward, producers);
    composite, producers := Produce(profile, Composite, producers);
    dof, producers := Produce(profile, DepthOfField, producers);
  }

  /** The last five constructions of DeferredRenderer.Initialize. */
  method CreateDeferredPostPasses(profile: RenderProfile, ghost producers: map<RenderTarget, BaseRenderer>)
    returns (blur: BaseRenderer, copy: BaseRenderer, bloom: BaseRenderer, dlaa: BaseRenderer,
             ssao: BaseRenderer, ghost extended: map<RenderTarget, BaseRenderer>)
    modifies profile
    ensures Produces(blur, Blur, extended) && Produces(copy, Copy, extended)
    ensures Produces(bloom, Bloom, extended) && Produces(dlaa, DLAA, extended)
    ensures Produces(ssao, SSAO, extended)
    ensures forall t :: t in producers ==> t in extended && extended[t] == producers[t]
    ensures profile.debugTargets == old(profile.debugTargets) && profile.output == old(profile.output)
  {
    blur, extended := Produce(profile, Blur, producers);
    copy, extended := Produce(profile, Copy, extended);
    bloom, extended := Produce(profile, Bloom, extended);
    dlaa, extended := Produce(profile, DLAA, extended);
    ssao, extended := Produce(profile, SSAO, extended);
  }
}
