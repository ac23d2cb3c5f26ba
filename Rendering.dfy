// The render-pass graph: render targets owned by a profile, the BaseRenderer bindings
// every pass shares, the name-to-pass factory and the RenderProfile that owns them.

module Rendering {
  import opened Geometry
  import opened Outcomes
  import Scenes
  import Cameras

  /** A back-buffer dimension as the graphics device reports it. */
  type Positive = x: int | x > 0 witness 1

  datatype SurfaceFormat = Color | Single | Rg32 | Rgba1010102 | Alpha8 | HdrBlendable | Vector4
  datatype DepthFormat = NoDepth | Depth24 | Depth24Stencil8
  datatype RenderTargetUsage = DiscardContents | PreserveContents | PlatformContents

  /** A GPU render target: an opaque handle whose identity is its object identity. */
  class RenderTarget {
    const width: int
    const height: int
    const mipMap: bool
    const surfaceFormat: SurfaceFormat
    const depthFormat: DepthFormat
    const usage: RenderTargetUsage
    var disposed: bool

    constructor (width: int, height: int, mipMap: bool, surfaceFormat: SurfaceFormat,
                 depthFormat: DepthFormat, usage: RenderTargetUsage)
      ensures this.width == width && this.height == height && this.mipMap == mipMap
      ensures this.surfaceFormat == surfaceFormat && this.depthFormat == depthFormat
      ensures this.usage == usage && !disposed
    {
      this.width := width;
      this.height := height;
      this.mipMap := mipMap;
      this.surfaceFormat := surfaceFormat;
      this.depthFormat := depthFormat;
      this.usage := usage;
      disposed := false;
    }

    method Dispose()
      modifies this
      ensures disposed
    {
      disposed := true;
    }
  }

  /** What a pass constructor asks of RenderProfile.AddRenderTarget. */
  datatype TargetSpec = TargetSpec(width: int, height: int, surfaceFormat: SurfaceFormat,
                                   depthFormat: DepthFormat)

  /** A target made by the four-argument AddRenderTarget from `spec`. */
  ghost predicate MadeFrom(t: RenderTarget, spec: TargetSpec)
  {
    t.width == spec.width && t.height == spec.height && !t.mipMap
    && t.surfaceFormat == spec.surfaceFormat && t.depthFormat == spec.depthFormat
    && t.usage == DiscardContents
  }

  /** The concrete BaseRenderer subclasses of the engine. */
  datatype PassKind =
    | SmallGBuffer | GBuffer | Light | Forward | Composite | DLAA | SSAO | Blur | Bloom
    | DepthOfField | Copy | Water | ReconstructDepth | ExpShadow | PSShadow

  /** The C# class name of each pass, the key the factory registers it under. */
  function ClassName(kind: PassKind): string
  {
    match kind
    case SmallGBuffer => "SmallGBufferShader"
    case GBuffer => "GBufferShader"
    case Light => "LightShader"
    case Forward => "ForwardShader"
    case Composite => "CompositeShader"
    case DLAA => "DLAAShader"
    case SSAO => "SSAOShader"
    case Blur => "BlurShader"
    case Bloom => "BloomShader"
    case DepthOfField => "DepthOfFieldShader"
    case Copy => "CopyShader"
    case Water => "WaterShader"
    case ReconstructDepth => "ReconstructDepthShader"
    case ExpShadow => "ExpShadowMapper"
    case PSShadow => "PSShadowMapper"
  }

  /** Side of the light shader's shadow-map tile; the depth atlas is 8 tiles across. */
  const ShadowMapSize := 384
  /** Side of a shadow mapper's depth maps when it is constructed. */
  const InitialShadowTextureSize := 1024

  /** The targets each pass constructor adds to the profile, in the order it adds them,
      for a back buffer of w by h. */
  function PassTargets(kind: PassKind, w: int, h: int): seq<TargetSpec>
  {
    match kind
    case SmallGBuffer =>
      [TargetSpec(w, h, Color, Depth24Stencil8), TargetSpec(w, h, Single, NoDepth)]
    case GBuffer =>
      [TargetSpec(w, h, Color, Depth24Stencil8), TargetSpec(w, h, Single, NoDepth),
       TargetSpec(w, h, Color, Depth24Stencil8)]
    case Light =>
      [TargetSpec(w, h, HdrBlendable, NoDepth), TargetSpec(w, h, Alpha8, NoDepth),
       TargetSpec(w, h, Vector4, NoDepth),
       TargetSpec(ShadowMapSize * 8, ShadowMapSize * 8, Single, Depth24)]
    case Forward => [TargetSpec(w, h, Color, Depth24)]
    case Composite => [TargetSpec(w, h, Rgba1010102, NoDepth)]
    case DLAA => [TargetSpec(w, h, Color, NoDepth)]
    case SSAO => [TargetSpec(w / 1, h / 1, Alpha8, NoDepth), TargetSpec(w / 1, h / 1, Alpha8, NoDepth)]
    case Blur => [TargetSpec(w, h, Color, NoDepth), TargetSpec(w, h, Color, NoDepth)]
    case Bloom =>
      [TargetSpec(w, h, Rgba1010102, NoDepth), TargetSpec(w, h / 2, Rgba1010102, NoDepth),
       TargetSpec(w, h / 2, Rgba1010102, NoDepth)]
    case DepthOfField =>
      [TargetSpec(w, h, Rgba1010102, NoDepth), TargetSpec(w, h, Rgba1010102, NoDepth)]
    case Copy => [TargetSpec(w, h, Rgba1010102, Depth24)]
    case Water => [TargetSpec(w, h, Color, NoDepth)]
    case ReconstructDepth => [TargetSpec(w, h, Color, Depth24)]
    case ExpShadow =>
      [TargetSpec(w, h, Color, Depth24),
       TargetSpec(InitialShadowTextureSize, InitialShadowTextureSize, Rg32, Depth24Stencil8),
       TargetSpec(InitialShadowTextureSize, InitialShadowTextureSize, Color, Depth24Stencil8)]
    case PSShadow =>
      [TargetSpec(w, h, Color, Depth24),
       TargetSpec(InitialShadowTextureSize, InitialShadowTextureSize, Single, Depth24),
       TargetSpec(InitialShadowTextureSize, InitialShadowTextureSize, Single, Depth24),
       TargetSpec(InitialShadowTextureSize, InitialShadowTextureSize, Single, Depth24),
       TargetSpec(InitialShadowTextureSize, InitialShadowTextureSize, Single, Depth24)]
  }

  /** What `outputs` returns after construction, given the targets the constructor added
      (None is a null array: ReconstructDepthShader and PSShadowMapper never set one). */
  function PassOutputs(kind: PassKind, added: seq<RenderTarget>): Option<seq<RenderTarget>>
    requires |added| == |PassTargets(kind, 1, 1)|
  {
    match kind
    case Light => Some([added[0], added[3], added[1], added[2]])
    case ExpShadow => Some([added[0], added[1]])
    case ReconstructDepth => None
    case PSShadow => None
    case _ => Some(added)
  }

  /** Number of outputs each pass exposes; the profiles index no further than this. */
  function OutputCount(kind: PassKind): nat
  {
    match kind
    case SmallGBuffer => 2
    case GBuffer => 3
    case Light => 4
    case SSAO => 2
    case Blur => 2
    case Bloom => 3
    case DepthOfField => 2
    case ExpShadow => 2
    case ReconstructDepth => 0
    case PSShadow => 0
    case _ => 1
  }

  lemma PassOutputsAreOwnTargets(kind: PassKind, w: int, h: int, added: seq<RenderTarget>)
    requires |added| == |PassTargets(kind, w, h)|
    ensures |PassTargets(kind, w, h)| == |PassTargets(kind, 1, 1)|
    ensures PassOutputs(kind, added).Some? <==> kind != ReconstructDepth && kind != PSShadow
    ensures PassOutputs(kind, added).Some? ==> |PassOutputs(kind, added).value| == OutputCount(kind)
    ensures PassOutputs(kind, added).Some? ==>
              forall t :: t in PassOutputs(kind, added).value ==> t in added
  {
  }

  // ---- decimal keys "target_0", "target_1", ... ----

  function Digit(d: nat): char
    requires d < 10
  {
    "0123456789"[d]
  }

  /** Int32.ToString() of a non-negative value. */
  function NatToString(n: nat): (s: string)
    ensures |s| >= 1
    ensures n < 10 <==> |s| == 1
    decreases n
  {
    if n < 10 then [Digit(n)] else NatToString(n / 10) + [Digit(n % 10)]
  }

  lemma {:induction false} NatToStringInjective(a: nat, b: nat)
    requires NatToString(a) == NatToString(b)
    ensures a == b
    decreases a
  {
    var sa, sb := NatToString(a), NatToString(b);
    if a < 10 {
      assert b < 10;
      assert Digit(a) == sa[0] == sb[0] == Digit(b);
    } else {
      assert b >= 10;
      assert sa[..|sa| - 1] == NatToString(a / 10);
      assert sb[..|sb| - 1] == NatToString(b / 10);
      NatToStringInjective(a / 10, b / 10);
      assert Digit(a % 10) == sa[|sa| - 1] == sb[|sb| - 1] == Digit(b % 10);
    }
  }

  function TargetKey(i: nat): string
  {
    "target_" + NatToString(i)
  }

  /** Distinct positions give distinct keys, so Dictionary.Add never meets a duplicate. */
  lemma TargetKeyInjective(i: nat, j: nat)
    ensures TargetKey(i) == TargetKey(j) <==> i == j
  {
    if TargetKey(i) == TargetKey(j) {
      assert NatToString(i) == TargetKey(i)[7..] == TargetKey(j)[7..] == NatToString(j);
      NatToStringInjective(i, j);
    }
  }

  /** RenderTargetInput: a target together with the renderer it was bound to. */
  datatype RenderInput = RenderTargetInput(target: RenderTarget, renderer: BaseRenderer)

  /** The bindings SetInputs builds from `ts`: "target_i" to (ts[i], r). */
  function InputMap(ts: seq<RenderTarget>, r: BaseRenderer): map<string, RenderInput>
    decreases |ts|
  {
    if |ts| == 0 then map[]
    else InputMap(ts[..|ts| - 1], r)[TargetKey(|ts| - 1) := RenderTargetInput(ts[|ts| - 1], r)]
  }

  /** InputMap binds "target_i" to the i-th target. */
  lemma {:induction false} InputMapLookup(ts: seq<RenderTarget>, r: BaseRenderer, i: nat)
    requires i < |ts|
    ensures TargetKey(i) in InputMap(ts, r)
    ensures InputMap(ts, r)[TargetKey(i)] == RenderTargetInput(ts[i], r)
    decreases |ts|
  {
    var n := |ts| - 1;
    if i < n {
      InputMapLookup(ts[..n], r, i);
      TargetKeyInjective(i, n);
    }
  }

  /** InputMap binds no key other than "target_0" .. "target_(n-1)". */
  lemma {:induction false} InputMapKeys(ts: seq<RenderTarget>, r: BaseRenderer, k: string)
    requires k in InputMap(ts, r)
    ensures exists i :: 0 <= i < |ts| && k == TargetKey(i)
    decreases |ts|
  {
    var n := |ts| - 1;
    if k != TargetKey(n) {
      InputMapKeys(ts[..n], r, k);
    }
  }

  /** `m` binds exactly the keys "target_0" .. "target_(n-1)", each to its own target of
      `ts` and the renderer `r`. */
  ghost predicate BindsExactly(m: map<string, RenderInput>, ts: seq<RenderTarget>, r: BaseRenderer)
  {
    (forall i {:trigger ts[i]} :: 0 <= i < |ts| ==>
       TargetKey(i) in m && m[TargetKey(i)] == RenderTargetInput(ts[i], r))
    && (forall k :: k in m ==> exists i :: 0 <= i < |ts| && k == TargetKey(i))
  }

  /** InputMap binds exactly the keys "target_0" .. "target_(n-1)", each to its own target. */
  lemma InputMapExactly(ts: seq<RenderTarget>, r: BaseRenderer)
    ensures BindsExactly(InputMap(ts, r), ts, r)
  {
    forall i | 0 <= i < |ts|
      ensures TargetKey(i) in InputMap(ts, r) && InputMap(ts, r)[TargetKey(i)] == RenderTargetInput(ts[i], r)
    {
      InputMapLookup(ts, r, i);
    }
    forall k | k in InputMap(ts, r)
      ensures exists i :: 0 <= i < |ts| && k == TargetKey(i)
    {
      InputMapKeys(ts, r, k);
    }
  }

  /** The key about to be added by the loop of SetInputs is not bound yet. */
  lemma NextKeyAbsent(ts: seq<RenderTarget>, r: BaseRenderer)
    ensures TargetKey(|ts|) !in InputMap(ts, r)
  {
    if TargetKey(|ts|) in InputMap(ts, r) {
      InputMapKeys(ts, r, TargetKey(|ts|));
      var i :| 0 <= i < |ts| && TargetKey(|ts|) == TargetKey(i);
      TargetKeyInjective(i, |ts|);
    }
  }

  /** The state every pass inherits from BaseRenderer. */
  class BaseRenderer {
    const kind: PassKind
    var hasSceneInput: bool
    var renderInputs: map<string, RenderInput>
    var scene: Scenes.Scene?
    var camera: Cameras.Camera?
    /** inputTargets; None is a null array. */
    var inputTargets: Option<seq<RenderTarget>>
    /** outputTargets, which the `outputs` property returns. */
    const outputTargets: Option<seq<RenderTarget>>
    const backBufferWidth: Positive
    const backBufferHeight: Positive
    const halfPixel: Vec2

    /** The BaseRenderer constructor with LoadContent: scene input on, no bindings, half a
        texel of the back buffer. */
    constructor (kind: PassKind, backBufferWidth: Positive, backBufferHeight: Positive,
                 outputTargets: Option<seq<RenderTarget>>)
      ensures this.kind == kind && hasSceneInput && renderInputs == map[]
      ensures scene == null && camera == null && inputTargets == None
      ensures this.outputTargets == outputTargets
      ensures this.backBufferWidth == backBufferWidth && this.backBufferHeight == backBufferHeight
      ensures halfPixel.x * (backBufferWidth as real) == 0.5
      ensures halfPixel.y * (backBufferHeight as real) == 0.5
    {
      this.kind := kind;
      hasSceneInput := true;
      renderInputs := map[];
      scene := null;
      camera := null;
      inputTargets := None;
      this.outputTargets := outputTargets;
      this.backBufferWidth := backBufferWidth;
      this.backBufferHeight := backBufferHeight;
      halfPixel := Vec2(0.5 / (backBufferWidth as real), 0.5 / (backBufferHeight as real));
    }

    /** The bindings name exactly the targets last given, as "target_i" for targets[i]. */
    ghost predicate InputsBound()
      reads this
    {
      inputTargets.Some? ==> BindsExactly(renderInputs, inputTargets.value, this)
    }

    /** SetInputs(targets): store the array, then (unless it is null) replace every
        binding by "target_i" to targets[i]. */
    method SetInputs(targets: Option<seq<RenderTarget>>)
      modifies this
      ensures inputTargets == targets
      ensures targets.None? ==> renderInputs == old(renderInputs)
      ensures targets.Some? ==> renderInputs == InputMap(targets.value, this)
      ensures InputsBound()
      ensures scene == old(scene) && camera == old(camera) && hasSceneInput == old(hasSceneInput)
    {
      inputTargets := targets;
      if targets.None? {
        return;
      }
      var ts := targets.value;
      renderInputs := map[];
      var i := 0;
      while i < |ts|
        invariant 0 <= i <= |ts|
        invariant renderInputs == InputMap(ts[..i], this)
        invariant inputTargets == targets && scene == old(scene) && camera == old(camera)
        invariant hasSceneInput == old(hasSceneInput)
      {
        NextKeyAbsent(ts[..i], this);
        assert TargetKey(i) !in renderInputs;  // Dictionary.Add does not throw
        assert ts[..i + 1][..i] == ts[..i];
        renderInputs := renderInputs[TargetKey(i) := RenderTargetInput(ts[i], this)];
        i := i + 1;
      }
      assert ts[..i] == ts;
      InputMapExactly(ts, this);
    }

    /** SetInputs(scene, camera, targets). */
    method SetSceneInputs(scene: Scenes.Scene?, camera: Cameras.Camera?, targets: Option<seq<RenderTarget>>)
      modifies this
      ensures this.scene == scene && this.camera == camera
      ensures inputTargets == targets
      ensures targets.None? ==> renderInputs == old(renderInputs)
      ensures targets.Some? ==> renderInputs == InputMap(targets.value, this)
      ensures InputsBound()
      ensures hasSceneInput == old(hasSceneInput)
    {
      this.scene := scene;
      this.camera := camera;
      SetInputs(targets);
    }

    /** SetOutputTo: looks `source` up in both renderers and only assigns a local; `dest`
        is never read and no binding of either renderer changes. The local's final value is
        returned so that the lookups can be stated. */
    method SetOutputTo(shader: BaseRenderer, source: string, dest: string)
      returns (destInput: Option<RenderInput>)
      ensures destInput.Some? <==> source in shader.renderInputs
      ensures destInput.Some? && source in renderInputs ==> destInput.value == renderInputs[source]
      ensures destInput.Some? && source !in renderInputs ==>
                destInput.value == shader.renderInputs[source]
    {
      var srcInput: Option<RenderInput> := None;
      destInput := None;
      if source in renderInputs {
        srcInput := Some(renderInputs[source]);
      }
      if source in shader.renderInputs {
        destInput := Some(shader.renderInputs[source]);
      }
      if srcInput.Some? && destInput.Some? {
        destInput := srcInput;
      }
    }
  }

  /** A type of the engine's assembly as the factory sees it through reflection. */
  datatype AssemblyType = AssemblyType(
    name: string,
    assignableToBase: bool,   // typeof(BaseRenderer).IsAssignableFrom(type)
    isBase: bool,             // type == typeof(BaseRenderer)
    pass: Option<PassKind>)   // the concrete pass it constructs; None for an abstract type

  predicate Registered(t: AssemblyType)
  {
    t.assignableToBase && !t.isBase
  }

  /** The factory's map after registering `types` in order, when no name repeats. */
  function Registry(types: seq<AssemblyType>): map<string, AssemblyType>
    decreases |types|
  {
    if |types| == 0 then map[]
    else
      var t := types[|types| - 1];
      if Registered(t) then Registry(types[..|types| - 1])[t.name := t]
      else Registry(types[..|types| - 1])
  }

  /** No two registered types share a name (Dictionary.Add throws otherwise). */
  predicate NamesDistinct(types: seq<AssemblyType>)
  {
    forall i, j :: 0 <= i < j < |types| && Registered(types[i]) && Registered(types[j]) ==>
      types[i].name != types[j].name
  }

  /** The registry maps a name iff some registered type has it, and it maps a name to a
      registered type of that name. */
  lemma {:induction false} RegistryExactly(types: seq<AssemblyType>)
    ensures forall name :: name in Registry(types) ==>
              Registered(Registry(types)[name]) && Registry(types)[name].name == name
              && Registry(types)[name] in types
    ensures forall i :: 0 <= i < |types| && Registered(types[i]) ==> types[i].name in Registry(types)
    decreases |types|
  {
    if |types| > 0 {
      var n := |types| - 1;
      RegistryExactly(types[..n]);
      assert forall i :: 0 <= i < n ==> types[..n][i] == types[i];
    }
  }

  /** With distinct names every registered type is found under its own name. */
  lemma {:induction false} RegistryFindsEach(types: seq<AssemblyType>)
    requires NamesDistinct(types)
    ensures forall i :: 0 <= i < |types| && Registered(types[i]) ==>
              types[i].name in Registry(types) && Registry(types)[types[i].name] == types[i]
    decreases |types|
  {
    if |types| > 0 {
      var n := |types| - 1;
      assert NamesDistinct(types[..n]);
      RegistryFindsEach(types[..n]);
      assert forall i :: 0 <= i < n ==> types[..n][i] == types[i];
    }
  }

  /** The BaseRenderer subclasses of the engine, with the base class itself and two
      unrelated types of the same assembly. */
  const EngineTypes: seq<AssemblyType> := SceneTypes + PostProcessTypes

  const SceneTypes: seq<AssemblyType> := [
    AssemblyType("BaseRenderer", true, true, None),
    AssemblyType("RenderProfile", false, false, None),
    AssemblyType("Scene", false, false, None),
    AssemblyType("ShadowMapper", true, false, None),
    AssemblyType("SmallGBufferShader", true, false, Some(SmallGBuffer)),
    AssemblyType("GBufferShader", true, false, Some(GBuffer)),
    AssemblyType("LightShader", true, false, Some(Light)),
    AssemblyType("ForwardShader", true, false, Some(Forward)),
    AssemblyType("CompositeShader", true, false, Some(Composite)),
    AssemblyType("WaterShader", true, false, Some(Water)),
    AssemblyType("ReconstructDepthShader", true, false, Some(ReconstructDepth)),
    AssemblyType("ExpShadowMapper", true, false, Some(ExpShadow)),
    AssemblyType("PSShadowMapper", true, false, Some(PSShadow))
  ]

  const PostProcessTypes: seq<AssemblyType> := [
    AssemblyType("DLAAShader", true, false, Some(DLAA)),
    AssemblyType("SSAOShader", true, false, Some(SSAO)),
    AssemblyType("BlurShader", true, false, Some(Blur)),
    AssemblyType("BloomShader", true, false, Some(Bloom)),
    AssemblyType("DepthOfFieldShader", true, false, Some(DepthOfField)),
    AssemblyType("CopyShader", true, false, Some(Copy))
  ]

  lemma NamesDistinctConcat(a: seq<AssemblyType>, b: seq<AssemblyType>)
    requires NamesDistinct(a) && NamesDistinct(b)
    requires forall i, j :: 0 <= i < |a| && 0 <= j < |b| && Registered(a[i]) && Registered(b[j]) ==>
               a[i].name != b[j].name
    ensures NamesDistinct(a + b)
  {
    forall i, j | 0 <= i < j < |a + b| && Registered((a + b)[i]) && Registered((a + b)[j])
      ensures (a + b)[i].name != (a + b)[j].name
    {
      if j < |a| {
      } else if i >= |a| {
        assert (a + b)[i] == b[i - |a|] && (a + b)[j] == b[j - |a|];
      } else {
        assert (a + b)[j] == b[j - |a|];
      }
    }
  }

  /** The post-processing names share a suffix "Shader" with different stems, and none
      of them is a scene pass name. */
  lemma EngineNamesDistinct()
    ensures NamesDistinct(EngineTypes)
  {
    SceneNamesDistinct();
    PostProcessNamesDistinct();
    NamesApart();
    NamesDistinctConcat(SceneTypes, PostProcessTypes);
  }

  lemma SceneNamesDistinct()
    ensures NamesDistinct(SceneTypes)
  {
  }

  lemma PostProcessNamesDistinct()
    ensures NamesDistinct(PostProcessTypes)
  {
  }

  lemma NamesApart()
    ensures forall i, j :: 0 <= i < |SceneTypes| && 0 <= j < |PostProcessTypes| ==>
              SceneTypes[i].name != PostProcessTypes[j].name
  {
  }

  /** Over the engine's own types the factory registers every concrete pass under its
      class name and keeps the abstract
      ShadowMapper, which Create cannot instantiate. */
  lemma EngineRegistry()
    ensures forall kind: PassKind :: ClassName(kind) in Registry(EngineTypes)
              && Registry(EngineTypes)[ClassName(kind)].pass == Some(kind)
    ensures "ShadowMapper" in Registry(EngineTypes)
              && Registry(EngineTypes)["ShadowMapper"].pass == None
  {
    EngineNamesDistinct();
    RegistryFindsEach(EngineTypes);
    forall kind: PassKind
      ensures ClassName(kind) in Registry(EngineTypes)
              && Registry(EngineTypes)[ClassName(kind)].pass == Some(kind)
    {
      var i := match kind
        case SmallGBuffer => 4 case GBuffer => 5 case Light => 6 case Forward => 7
        case Composite => 8 case Water => 9 case ReconstructDepth => 10 case ExpShadow => 11
        case PSShadow => 12 case DLAA => 13 case SSAO => 14 case Blur => 15 case Bloom => 16
        case DepthOfField => 17 case Copy => 18;
      assert EngineTypes[i].name == ClassName(kind) && Registered(EngineTypes[i]);
    }
    assert EngineTypes[3].name == "ShadowMapper" && Registered(EngineTypes[3]);
  }

  /** RendererFactory: the class name of every BaseRenderer subtype mapped to its type. */
  class RendererFactory {
    var types: map<string, AssemblyType>

    constructor ()
      ensures types == map[]
    {
      types := map[];
    }

    /** The loop of the factory constructor over the assembly's types. */
    method RegisterTypes(rendererTypes: seq<AssemblyType>) returns (r: Outcome)
      requires types == map[]
      modifies this
      ensures r == Done <==> NamesDistinct(rendererTypes)
      ensures r.Failed? ==> r.error == DuplicateKey
      ensures r == Done ==> types == Registry(rendererTypes)
    {
      var i := 0;
      while i < |rendererTypes|
        invariant 0 <= i <= |rendererTypes|
        invariant types == Registry(rendererTypes[..i])
        invariant NamesDistinct(rendererTypes[..i])
      {
        var t := rendererTypes[i];
        assert rendererTypes[..i + 1][..i] == rendererTypes[..i];
        if !t.assignableToBase || t.isBase {
          i := i + 1;
          continue;
        }
        if t.name in types {
          RegistryExactly(rendererTypes[..i]);
          var u := types[t.name];
          var j :| 0 <= j < i && rendererTypes[..i][j] == u;
          assert rendererTypes[j] == u && u.name == t.name;
          return Failed(DuplicateKey);
        }
        RegistryExactly(rendererTypes[..i]);
        types := types[t.name := t];
        i := i + 1;
      }
      assert rendererTypes[..i] == rendererTypes;
      return Done;
    }

    /** Create(name, profile): an unknown name is a key lookup failure, an abstract type
        cannot be instantiated, any other name constructs its pass on the profile. */
    method Create(shaderName: string, profile: RenderProfile) returns (r: Result<BaseRenderer>)
      modifies profile
      ensures shaderName !in types ==> r == Err(KeyNotFound)
      ensures shaderName in types && types[shaderName].pass.None? ==> r == Err(AbstractType)
      ensures r.Ok? <==> shaderName in types && types[shaderName].pass.Some?
      ensures r.Ok? ==> PassCreated(r.value, types[shaderName].pass.value, profile,
                                    old(profile.renderTaskTargets))
      ensures r.Ok? ==> fresh(r.value) && TargetsMadeFrom(profile, old(profile.renderTaskTargets), r.value.kind)
      ensures forall i :: |old(profile.renderTaskTargets)| <= i < |profile.renderTaskTargets| ==>
                fresh(profile.renderTaskTargets[i])
      ensures r.Err? ==> profile.renderTaskTargets == old(profile.renderTaskTargets)
      ensures profile.debugTargets == old(profile.debugTargets)
      ensures profile.renderTasks == old(profile.renderTasks) && profile.output == old(profile.output)
    {
      if shaderName !in types {
        return Err(KeyNotFound);
      }
      var t := types[shaderName];
      if t.pass.None? {
        return Err(AbstractType);
      }
      var pass := CreatePass(profile, t.pass.value);
      return Ok(pass);
    }
  }

  /** `pass` is a freshly constructed pass of `kind` whose constructor appended its targets
      to the profile's list, which held `before`. */
  ghost predicate PassCreated(pass: BaseRenderer, kind: PassKind, profile: RenderProfile,
                              before: seq<RenderTarget>)
    reads pass, profile
  {
    var specs := PassTargets(kind, profile.backBufferWidth, profile.backBufferHeight);
    var ts := profile.renderTaskTargets;
    |ts| == |before| + |specs| && ts[..|before|] == before
    && pass.kind == kind && pass.hasSceneInput && pass.renderInputs == map[]
    && pass.scene == null && pass.camera == null && pass.inputTargets == None
    && pass.backBufferWidth == profile.backBufferWidth
    && pass.backBufferHeight == profile.backBufferHeight
    && pass.outputTargets == PassOutputs(kind, ts[|before|..])
  }

  /** The targets appended after `before` are live and made from the pass's specs. */
  ghost predicate TargetsMadeFrom(profile: RenderProfile, before: seq<RenderTarget>, kind: PassKind)
    reads profile, profile.renderTaskTargets
  {
    var specs := PassTargets(kind, profile.backBufferWidth, profile.backBufferHeight);
    var ts := profile.renderTaskTargets;
    |ts| == |before| + |specs|
    && forall i :: |before| <= i < |ts| ==> !ts[i].disposed && MadeFrom(ts[i], specs[i - |before|])
  }

  /** A pass constructor: the targets it adds, then the BaseRenderer part holding the
      outputs it exposes. */
  method CreatePass(profile: RenderProfile, kind: PassKind) returns (pass: BaseRenderer)
    modifies profile
    ensures fresh(pass)
    ensures PassCreated(pass, kind, profile, old(profile.renderTaskTargets))
    ensures TargetsMadeFrom(profile, old(profile.renderTaskTargets), kind)
    ensures forall i :: |old(profile.renderTaskTargets)| <= i < |profile.renderTaskTargets| ==>
              fresh(profile.renderTaskTargets[i])
    ensures profile.debugTargets == old(profile.debugTargets)
    ensures profile.renderTasks == old(profile.renderTasks) && profile.output == old(profile.output)
  {
    var added := AddTargets(profile, PassTargets(kind, profile.backBufferWidth, profile.backBufferHeight));
    assert profile.renderTaskTargets[|old(profile.renderTaskTargets)|..] == added;
    pass := new BaseRenderer(kind, profile.backBufferWidth, profile.backBufferHeight, PassOutputs(kind, added));
  }

  /** The AddRenderTarget calls of a pass constructor, one per spec, in order. */
  method AddTargets(profile: RenderProfile, specs: seq<TargetSpec>) returns (added: seq<RenderTarget>)
    modifies profile
    ensures profile.renderTaskTargets == old(profile.renderTaskTargets) + added
    ensures |added| == |specs|
    ensures forall j :: 0 <= j < |specs| ==> fresh(added[j]) && !added[j].disposed && MadeFrom(added[j], specs[j])
    ensures profile.debugTargets == old(profile.debugTargets)
    ensures profile.renderTasks == old(profile.renderTasks) && profile.output == old(profile.output)
  {
    added := [];
    for i := 0 to |specs|
      invariant |added| == i
      invariant profile.renderTaskTargets == old(profile.renderTaskTargets) + added
      invariant forall j :: 0 <= j < i ==> fresh(added[j]) && !added[j].disposed && MadeFrom(added[j], specs[j])
      invariant profile.debugTargets == old(profile.debugTargets)
      invariant profile.renderTasks == old(profile.renderTasks) && profile.output == old(profile.output)
    {
      var t := profile.AddRenderTarget(specs[i].width, specs[i].height,
                                       specs[i].surfaceFormat, specs[i].depthFormat);
      added := added + [t];
    }
  }

  /** RenderProfile: the renderers of one pipeline and the render targets they share. */
  class RenderProfile {
    const backBufferWidth: Positive
    const backBufferHeight: Positive
    /** renderTasks, keyed as AddRenderTask keys them. */
    var renderTasks: map<string, BaseRenderer>
    /** Every target allocated through AddRenderTarget, in allocation order. */
    var renderTaskTargets: seq<RenderTarget>
    var debugTargets: seq<RenderTarget>
    var output: RenderTarget?
    const rendererFactory: RendererFactory

    constructor (backBufferWidth: Positive, backBufferHeight: Positive, factory: RendererFactory)
      ensures this.backBufferWidth == backBufferWidth && this.backBufferHeight == backBufferHeight
      ensures renderTasks == map[] && renderTaskTargets == [] && debugTargets == []
      ensures output == null && rendererFactory == factory
    {
      this.backBufferWidth := backBufferWidth;
      this.backBufferHeight := backBufferHeight;
      renderTasks := map[];
      renderTaskTargets := [];
      debugTargets := [];
      output := null;
      rendererFactory := factory;
    }

    /** Initialize: forget the debug and render targets, without disposing them. */
    method Initialize()
      modifies this
      ensures debugTargets == [] && renderTaskTargets == []
      ensures renderTasks == old(renderTasks) && output == old(output)
      ensures forall t :: t in old(renderTaskTargets) ==> t.disposed == old(t.disposed)
    {
      debugTargets := [];
      renderTaskTargets := [];
    }

    /** AddRenderTask: every task goes under the key "Test", so only the first call
        succeeds. */
    method AddRenderTask(renderTask: BaseRenderer) returns (r: Result<BaseRenderer>)
      modifies this
      ensures "Test" in old(renderTasks) <==> r == Err(DuplicateKey)
      ensures "Test" in old(renderTasks) ==> renderTasks == old(renderTasks)
      ensures "Test" !in old(renderTasks) ==>
                r == Ok(renderTask) && renderTasks == old(renderTasks)["Test" := renderTask]
      ensures renderTaskTargets == old(renderTaskTargets) && debugTargets == old(debugTargets)
      ensures output == old(output)
    {
      if "Test" in renderTasks {
        return Err(DuplicateKey);
      }
      renderTasks := renderTasks["Test" := renderTask];
      return Ok(renderTask);
    }

    /** AddRenderTarget(width, height, surfaceFormat, depthFormat, usage): append one new
        target and return it. */
    method AddRenderTargetWithUsage(width: int, height: int, surfaceFormat: SurfaceFormat,
                                    depthFormat: DepthFormat, usage: RenderTargetUsage)
      returns (t: RenderTarget)
      modifies this
      ensures fresh(t) && renderTaskTargets == old(renderTaskTargets) + [t]
      ensures t.width == width && t.height == height && !t.mipMap && !t.disposed
      ensures t.surfaceFormat == surfaceFormat && t.depthFormat == depthFormat && t.usage == usage
      ensures debugTargets == old(debugTargets) && renderTasks == old(renderTasks)
      ensures output == old(output)
    {
      t := new RenderTarget(width, height, false, surfaceFormat, depthFormat, usage);
      renderTaskTargets := renderTaskTargets + [t];
    }

    /** AddRenderTarget(width, height, surfaceFormat, depthFormat): the same with contents
        discarded. */
    method AddRenderTarget(width: int, height: int, surfaceFormat: SurfaceFormat,
                           depthFormat: DepthFormat)
      returns (t: RenderTarget)
      modifies this
      ensures fresh(t) && renderTaskTargets == old(renderTaskTargets) + [t]
      ensures MadeFrom(t, TargetSpec(width, height, surfaceFormat, depthFormat)) && !t.disposed
      ensures debugTargets == old(debugTargets) && renderTasks == old(renderTasks)
      ensures output == old(output)
    {
      t := AddRenderTargetWithUsage(width, height, surfaceFormat, depthFormat, DiscardContents);
    }

    /** DisposeRenderers: dispose every target the profile allocated, then empty the list
        (each renderer's DisposeResources does nothing). */
    method DisposeRenderers()
      modifies this, renderTaskTargets
      ensures forall t :: t in old(renderTaskTargets) ==> t.disposed
      ensures renderTaskTargets == []
      ensures debugTargets == old(debugTargets) && renderTasks == old(renderTasks)
      ensures output == old(output)
    {
      var targets := renderTaskTargets;
      for i := 0 to |targets|
        invariant renderTaskTargets == targets
        invariant forall j :: 0 <= j < i ==> targets[j].disposed
        invariant debugTargets == old(debugTargets) && renderTasks == old(renderTasks)
        invariant output == old(output)
      {
        targets[i].Dispose();
      }
      renderTaskTargets := [];
    }
  }
}
