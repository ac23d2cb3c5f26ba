// The lighting pass of the engine (LightShader): directional-light shadow maps drawn into an
// atlas of 8 x 8 tiles, their projection flushed to the shader in batches of twelve, the
// light-space box each shadow view is fitted to, and the split of the visible point lights
// into the group drawn with clockwise culling and the group drawn with counter-clockwise culling.

module LightShading {
  import opened Geometry
  import opened Outcomes
  import opened Lights
  import opened Models
  import opened Scenes
  import opened Cameras
  import Rendering
  import SceneRendering

  /** Side of one shadow tile, in pixels. */
  const ShadowMapSize: nat := 384
  /** Light matrices and map offsets the shader takes in one flush. */
  const ShadowBatchSize: nat := 12
  /** Tiles along each side of the shadow atlas. */
  const AtlasTiles: nat := 8
  /** Side of the shadow atlas (the depth target), in pixels. */
  const AtlasSize: nat := ShadowMapSize * AtlasTiles
  /** Meshes one shadow-casting light handles: one per atlas tile. */
  const MaxShadowMeshes: nat := 64
  /** Slots of each point-light instance array. */
  const LightCapacity: nat := 1000
  /** The default projectionScale of CreateLightViewProjMatrix. */
  const ProjectionScale: real := 25.0

  /* ---------------------------------------------------------------- shadow atlas tiles */

  /** A viewport rectangle in pixels. */
  datatype Viewport = Viewport(x: int, y: int, width: int, height: int)

  /** The viewport the j-th mesh of a light is drawn into: column j % 8, row j / 8. */
  function TileViewport(j: nat): Viewport {
    Viewport(ShadowMapSize * (j % 8), ShadowMapSize * (j / 8), ShadowMapSize, ShadowMapSize)
  }

  /** The texture offset the projection stores for the j-th mesh. */
  function TileOffset(j: nat): Vec2 {
    Vec2((j % 8) as real / 8.0, (j / 8) as real / 8.0)
  }

  /** The number of meshes a light handles when the scene orders n: the loops stop at 64. */
  function Capped(n: nat): (m: nat)
    ensures m <= MaxShadowMeshes && m <= n
    ensures m == n || m == MaxShadowMeshes
  {
    if n < MaxShadowMeshes then n else MaxShadowMeshes
  }

  /** Every mesh a light handles gets a tile inside the atlas. */
  lemma TileInsideAtlas(j: nat)
    requires j < MaxShadowMeshes
    ensures var v := TileViewport(j);
      0 <= v.x && v.x + v.width <= AtlasSize && 0 <= v.y && v.y + v.height <= AtlasSize
  {
    assert j / 8 < 8;
  }

  /** Without the cap a 65th mesh would be drawn below the atlas. */
  lemma TileBeyondCapLeavesAtlas(j: nat)
    requires MaxShadowMeshes <= j
    ensures TileViewport(j).y >= AtlasSize
  {
    assert j / 8 >= 8;
  }

  /** Two meshes of one light never share pixels of the atlas. */
  lemma TilesDisjoint(i: nat, j: nat)
    requires i < MaxShadowMeshes && j < MaxShadowMeshes && i != j
    ensures var a, b := TileViewport(i), TileViewport(j);
      a.x + a.width <= b.x || b.x + b.width <= a.x || a.y + a.height <= b.y || b.y + b.height <= a.y
  {
    assert i == 8 * (i / 8) + i % 8 && j == 8 * (j / 8) + j % 8;
    assert i % 8 != j % 8 || i / 8 != j / 8;
  }

  /** The offset stored for a mesh is the corner of the tile it was drawn into, as a fraction of
      the atlas. */
  lemma OffsetMatchesTile(j: nat)
    ensures TileOffset(j).x * AtlasSize as real == TileViewport(j).x as real
    ensures TileOffset(j).y * AtlasSize as real == TileViewport(j).y as real
  {
  }

  /* ---------------------------------------------------------------- shadow batches */

  /** The shadowLoops values of the flushes for a light that handles m meshes: one full batch
      per twelve meshes, then the remainder if there is one. */
  function BatchLoops(m: nat): seq<int> {
    seq(m / ShadowBatchSize, _ => ShadowBatchSize as int) +
    (if m % ShadowBatchSize > 0 then [m % ShadowBatchSize] else [])
  }

  function Sum(s: seq<int>): int {
    if s == [] then 0 else Sum(s[..|s| - 1]) + s[|s| - 1]
  }

  /** The flushes of a light account for every mesh it handles exactly once, each flush carries
      between one and twelve meshes and only the last one can be partial. */
  lemma BatchLoopsCover(m: nat)
    ensures Sum(BatchLoops(m)) == m
    ensures forall b | 0 <= b < |BatchLoops(m)| :: 1 <= BatchLoops(m)[b] <= ShadowBatchSize
    ensures forall b | 0 <= b < |BatchLoops(m)| - 1 :: BatchLoops(m)[b] == ShadowBatchSize
    ensures |BatchLoops(m)| == (m + ShadowBatchSize - 1) / ShadowBatchSize
  {
    var q := m / ShadowBatchSize;
    FullBatchesSum(q);
    var full := seq(q, _ => ShadowBatchSize as int);
    if m % ShadowBatchSize > 0 {
      assert BatchLoops(m)[..|BatchLoops(m)| - 1] == full;
    } else {
      assert BatchLoops(m) == full;
    }
  }

  lemma {:induction false} FullBatchesSum(q: nat)
    ensures Sum(seq(q, _ => ShadowBatchSize as int)) == ShadowBatchSize * q
  {
    if q > 0 {
      FullBatchesSum(q - 1);
      assert seq(q, _ => ShadowBatchSize as int)[..q - 1] == seq(q - 1, _ => ShadowBatchSize as int);
    }
  }

  /** The depth a projected-shadow quad is drawn at once j meshes have been batched: j / 100. */
  function QuadDepth(j: int): real {
    j as real / 100.0
  }

  /** What one upload of the projected shadows hands the shader: the loop count, the whole
      offset and matrix arrays, and the depth the quad is drawn at. */
  datatype ShadowFlush = ShadowFlush(shadowLoops: int, mapOffsets: seq<Vec2>, lightViewProj: seq<Matrix>, depth: real)

  /** Flush b of a light carries count meshes starting at mesh 12 * b: their tiles' offsets and
      their light matrices fill the first count entries of the uploaded arrays. */
  predicate FlushCovers(f: ShadowFlush, b: nat, count: nat, mats: seq<Matrix>) {
    f.shadowLoops == count && |f.mapOffsets| == ShadowBatchSize && |f.lightViewProj| == ShadowBatchSize &&
    f.depth == QuadDepth(ShadowBatchSize * b + count) && count <= ShadowBatchSize &&
    forall k | 0 <= k < count ::
      f.mapOffsets[k] == TileOffset(ShadowBatchSize * b + k) &&
      (ShadowBatchSize * b + k < |mats| ==> f.lightViewProj[k] == mats[ShadowBatchSize * b + k])
  }

  /** The flushes of a light that handles the meshes whose light matrices are mats. */
  predicate FlushesCover(fs: seq<ShadowFlush>, mats: seq<Matrix>) {
    var loops := BatchLoops(|mats|);
    |fs| == |loops| && forall b | 0 <= b < |fs| :: FlushCovers(fs[b], b, loops[b], mats)
  }

  /** The state of the projection loop for one light after its first n meshes, whose light
      matrices begin mats: the full batches flushed, the partial batch's offsets and matrices
      in the first batch entries of the arrays. */
  predicate BatchState(fs: seq<ShadowFlush>, batch: nat, matrices: seq<Matrix>, offsets: seq<Vec2>, mats: seq<Matrix>, n: nat) {
    n <= |mats| && n == ShadowBatchSize * |fs| + batch && batch < ShadowBatchSize &&
    |matrices| == ShadowBatchSize && |offsets| == ShadowBatchSize &&
    (forall b | 0 <= b < |fs| :: FlushCovers(fs[b], b, ShadowBatchSize, mats)) &&
    forall k | 0 <= k < batch :: offsets[k] == TileOffset(n - batch + k) && matrices[k] == mats[n - batch + k]
  }

  /** Mesh n in batch entry batch; when that fills the batch, the flush of the full arrays. */
  lemma BatchStep(fs: seq<ShadowFlush>, batch: nat, matrices: seq<Matrix>, offsets: seq<Vec2>, mats: seq<Matrix>, n: nat)
    requires BatchState(fs, batch, matrices, offsets, mats, n) && n < |mats|
    ensures var matrices', offsets' := matrices[batch := mats[n]], offsets[batch := TileOffset(n)];
      if batch + 1 == ShadowBatchSize
      then BatchState(fs + [ShadowFlush(ShadowBatchSize, offsets', matrices', QuadDepth(n + 1))], 0, matrices', offsets', mats, n + 1)
      else BatchState(fs, batch + 1, matrices', offsets', mats, n + 1)
  {
    var matrices', offsets' := matrices[batch := mats[n]], offsets[batch := TileOffset(n)];
    if batch + 1 == ShadowBatchSize {
      var f := ShadowFlush(ShadowBatchSize, offsets', matrices', QuadDepth(n + 1));
      assert FlushCovers(f, |fs|, ShadowBatchSize, mats);
    }
  }

  /** The trailing flush, when the last batch is partial, completes the light's flushes. */
  lemma BatchEnd(fs: seq<ShadowFlush>, batch: nat, matrices: seq<Matrix>, offsets: seq<Vec2>, mats: seq<Matrix>)
    requires BatchState(fs, batch, matrices, offsets, mats, |mats|)
    ensures FlushesCover(fs + (if batch > 0 then [ShadowFlush(batch, offsets, matrices, QuadDepth(|mats|))] else []), mats)
  {
    DivMod(|mats|, |fs|, batch);
    var all := fs + (if batch > 0 then [ShadowFlush(batch, offsets, matrices, QuadDepth(|mats|))] else []);
    var loops := BatchLoops(|mats|);
    assert |all| == |loops|;
    forall b | 0 <= b < |all|
      ensures FlushCovers(all[b], b, loops[b], mats)
    {
      if b < |fs| {
        assert all[b] == fs[b] && loops[b] == ShadowBatchSize;
      }
    }
  }

  lemma DivMod(n: nat, q: nat, r: nat)
    requires n == ShadowBatchSize * q + r && r < ShadowBatchSize
    ensures n / ShadowBatchSize == q && n % ShadowBatchSize == r
  {
  }

  /* ---------------------------------------------------------------- light-space box */

  /** The rotation that looks along the light: from the origin toward -direction, Y up. */
  function LightRotation(lib: Library, direction: Vec3): Matrix {
    lib.lookAt(Zero3, Sub(Zero3, direction), Up3)
  }

  /** Each corner carried through a matrix. */
  function Rotated(cs: seq<Vec3>, m: Matrix): seq<Vec3> {
    seq(|cs|, i requires 0 <= i < |cs| => Geometry.Transform(cs[i], m))
  }

  const FloatMax3 := Vec3(FloatMax, FloatMax, FloatMax)
  const FloatMin3 := Vec3(-FloatMax, -FloatMax, -FloatMax)

  /** The componentwise minimum of the corners, folded from float.MaxValue. */
  function CornerMin(cs: seq<Vec3>): Vec3 {
    if cs == [] then FloatMax3 else Min3(CornerMin(cs[..|cs| - 1]), cs[|cs| - 1])
  }

  /** The componentwise maximum of the corners, folded from float.MinValue. */
  function CornerMax(cs: seq<Vec3>): Vec3 {
    if cs == [] then FloatMin3 else Max3(CornerMax(cs[..|cs| - 1]), cs[|cs| - 1])
  }

  /** The point the light looks from, in light space: the centre of the box's X/Y face at its
      smallest Z. */
  function BackPanelCentre(box: BoundingBox): Vec3 {
    var halfBoxSize := Scale(Sub(box.max, box.min), 0.5);
    var p := Add(box.min, halfBoxSize);
    Vec3(p.x, p.y, box.min.z)
  }

  /** The light's view, fitted to corners already turned into light space. */
  function LightView(lib: Library, direction: Vec3, rotated: seq<Vec3>): Matrix {
    var box := BoundingBox(CornerMin(rotated), CornerMax(rotated));
    var position := Geometry.Transform(BackPanelCentre(box), lib.invert(LightRotation(lib, direction)));
    lib.lookAt(position, Add(position, direction), Up3)
  }

  /** The light's orthographic projection, as wide, high and deep as the fitted box. */
  function LightProjection(lib: Library, rotated: seq<Vec3>): Matrix {
    var boxSize := Sub(CornerMax(rotated), CornerMin(rotated));
    lib.orthographic(boxSize.x, boxSize.y, -boxSize.z, boxSize.z * ProjectionScale)
  }

  /** The box encloses every corner it was folded from. */
  lemma {:induction false} BoxEnclosesCorners(cs: seq<Vec3>)
    ensures forall i | 0 <= i < |cs| :: Leq3(CornerMin(cs), cs[i]) && Leq3(cs[i], CornerMax(cs))
  {
    if cs != [] {
      BoxEnclosesCorners(cs[..|cs| - 1]);
      assert forall i | 0 <= i < |cs| - 1 :: cs[..|cs| - 1][i] == cs[i];
    }
  }

  /** And it is the smallest such box: any bound on all corners that is within the float range
      bounds the box as well. */
  lemma {:induction false} BoxIsSmallest(cs: seq<Vec3>, lo: Vec3, hi: Vec3)
    requires Leq3(lo, FloatMax3) && Leq3(FloatMin3, hi)
    requires forall i | 0 <= i < |cs| :: Leq3(lo, cs[i]) && Leq3(cs[i], hi)
    ensures Leq3(lo, CornerMin(cs)) && Leq3(CornerMax(cs), hi)
  {
    if cs != [] {
      BoxIsSmallest(cs[..|cs| - 1], lo, hi);
    }
  }

  /** The box of at least one corner has no negative side, so the projection's extents are
      never negative. */
  lemma BoxSizeNonNegative(cs: seq<Vec3>)
    requires |cs| > 0
    ensures Leq3(Zero3, Sub(CornerMax(cs), CornerMin(cs)))
  {
    BoxEnclosesCorners(cs);
    assert Leq3(CornerMin(cs), cs[0]) && Leq3(cs[0], CornerMax(cs));
  }

  /** The light sits halfway across the box in X and Y, on its near face in Z. */
  lemma BackPanelCentred(box: BoundingBox)
    requires Leq3(box.min, box.max)
    ensures var p := BackPanelCentre(box);
      p.x - box.min.x == box.max.x - p.x && p.y - box.min.y == box.max.y - p.y && p.z == box.min.z &&
      Leq3(box.min, p) && Leq3(p, box.max)
  {
  }

  /* ---------------------------------------------------------------- point-light groups */

  /** The near-plane test that puts a visible light in the inner group: its sphere, centred on
      row 4 of its transform and 1.25 times as wide as row 1 is long, is not wholly in front of
      the camera's near plane, so the camera may be inside the light. */
  function IsInner(lib: Library, frustum: Frustum, light: PointLight): bool {
    var t := light.instance.transform;
    var bounds := Sphere(Vec3(t.m41, t.m42, t.m43), lib.length(Vec3(t.m11, t.m12, t.m13)) * 1.25);
    frustum.nearIntersects(bounds) != Front
  }

  /** The instances of the lights of one group, in the order the lights are visited. */
  function Group(lib: Library, frustum: Frustum, lights: seq<PointLight>, inner: bool): (g: seq<InstanceData>)
    ensures |g| <= |lights|
  {
    if lights == [] then []
    else
      var last := lights[|lights| - 1];
      Group(lib, frustum, lights[..|lights| - 1], inner) +
      (if IsInner(lib, frustum, last) == inner then [last.instance] else [])
  }

  function Instances(lights: seq<PointLight>): seq<InstanceData> {
    if lights == [] then [] else Instances(lights[..|lights| - 1]) + [lights[|lights| - 1].instance]
  }

  /** The two groups split the visible lights: every light is in exactly one of them. */
  lemma {:induction false} GroupsPartition(lib: Library, frustum: Frustum, lights: seq<PointLight>)
    ensures |Group(lib, frustum, lights, true)| + |Group(lib, frustum, lights, false)| == |lights|
    ensures multiset(Group(lib, frustum, lights, true)) + multiset(Group(lib, frustum, lights, false)) ==
      multiset(Instances(lights))
  {
    if lights != [] {
      GroupsPartition(lib, frustum, lights[..|lights| - 1]);
    }
  }

  /** The slot arrays as the loop leaves them: light k goes to slot k of its own group's array,
      whatever the group's count, and the other slots keep what they held. */
  function Scattered(slots: seq<InstanceData>, lib: Library, frustum: Frustum, lights: seq<PointLight>, inner: bool): seq<InstanceData> {
    seq(|slots|, k requires 0 <= k < |slots| =>
      if k < |lights| && IsInner(lib, frustum, lights[k]) == inner then lights[k].instance else slots[k])
  }

  /** One instanced draw of a light group, as DrawLightGroup uploads it. */
  datatype LightGroupDraw = LightGroupDraw(instances: seq<InstanceData>, cullClockwise: bool)

  /** The draws of a group: none when the group is empty. */
  function GroupDraws(instances: seq<InstanceData>, cullClockwise: bool): seq<LightGroupDraw> {
    if |instances| == 0 then [] else [LightGroupDraw(instances, cullClockwise)]
  }

  /** An outer light followed by an inner one: the loop stores the inner light in slot 1, but the
      inner group counts one light and uploads slot 0, which the loop never wrote. */
  lemma AsWrittenUploadsStaleSlot(lib: Library, frustum: Frustum, outer: PointLight, inner: PointLight, slots: seq<InstanceData>)
    requires |slots| == LightCapacity
    requires !IsInner(lib, frustum, outer) && IsInner(lib, frustum, inner)
    requires slots[0] != inner.instance
    ensures var visible := [outer, inner];
      var uploaded := Scattered(slots, lib, frustum, visible, true)[..|Group(lib, frustum, visible, true)|];
      uploaded == [slots[0]] && uploaded != Group(lib, frustum, visible, true)
  {
    var visible := [outer, inner];
    assert visible[..1] == [outer] && [outer][..0] == [];
    assert Group(lib, frustum, [outer], true) == [];
    assert Group(lib, frustum, visible, true) == [inner.instance];
  }

  /* ---------------------------------------------------------------- mesh lookups */

  /** The scene's static and skinned registries are well formed, so Scene.Model can be asked. */
  ghost predicate RegistriesValid(scene: Scene)
    reads scene
  {
    scene.staticModels.Valid() && scene.skinnedModels.Valid()
  }

  /** What the shadow loops' lookups of one ordered mesh end in: a null model name throws, as
      does a name in neither registry, a mesh index past the model's boxes, and (when the mesh is
      drawn through the static registry) a name that is only a skinned model. */
  function MeshOutcome(scene: Scene, om: OrderedMeshData, throughStatic: bool): Outcome
    requires RegistriesValid(scene)
    reads scene
  {
    match om.modelName
    case None => Failed(NullKey)
    case Some(key) =>
      match scene.Model(key)
      case Err(e) => Failed(e)
      case Ok(model) =>
        if om.meshID < 0 || om.meshID >= model.tempBoxes.Length then Failed(IndexOutOfRange)
        else if throughStatic && key !in scene.staticModels.keys then Failed(KeyNotFound)
        else Done
  }

  /** The first failing lookup among the ordered meshes, or Done when none fails. */
  function FirstFailure(scene: Scene, oms: seq<OrderedMeshData>, throughStatic: bool): Outcome
    requires RegistriesValid(scene)
    reads scene
  {
    if oms == [] then Done
    else
      var f := FirstFailure(scene, oms[..|oms| - 1], throughStatic);
      if f != Done then f else MeshOutcome(scene, oms[|oms| - 1], throughStatic)
  }

  /** Once a lookup has failed, later meshes do not change which failure is first. */
  lemma {:induction false} FirstFailureKept(scene: Scene, oms: seq<OrderedMeshData>, k: nat, throughStatic: bool)
    requires RegistriesValid(scene) && k <= |oms|
    requires FirstFailure(scene, oms[..k], throughStatic) != Done
    ensures FirstFailure(scene, oms, throughStatic) == FirstFailure(scene, oms[..k], throughStatic)
  {
    if k < |oms| {
      assert oms[..|oms| - 1][..k] == oms[..k];
      FirstFailureKept(scene, oms[..|oms| - 1], k, throughStatic);
    } else {
      assert oms[..k] == oms;
    }
  }

  /** One more mesh whose lookups go through keeps the prefix free of failures. */
  lemma FirstFailureExtend(scene: Scene, oms: seq<OrderedMeshData>, j: nat, throughStatic: bool)
    requires RegistriesValid(scene) && j < |oms|
    requires FirstFailure(scene, oms[..j], throughStatic) == Done
    ensures FirstFailure(scene, oms[..j + 1], throughStatic) == MeshOutcome(scene, oms[j], throughStatic)
  {
    assert oms[..j + 1][..j] == oms[..j];
  }

  /** The first mesh whose lookups fail decides the outcome of the whole sequence. */
  lemma FirstFailureAt(scene: Scene, oms: seq<OrderedMeshData>, j: nat, n: nat, throughStatic: bool)
    requires RegistriesValid(scene) && j < n <= |oms|
    requires FirstFailure(scene, oms[..j], throughStatic) == Done
    requires MeshOutcome(scene, oms[j], throughStatic) != Done
    ensures FirstFailure(scene, oms[..n], throughStatic) == MeshOutcome(scene, oms[j], throughStatic)
  {
    FirstFailureExtend(scene, oms, j, throughStatic);
    assert oms[..n][..j + 1] == oms[..j + 1];
    FirstFailureKept(scene, oms[..n], j + 1, throughStatic);
  }

  /** The box array an ordered mesh's light is fitted to: the one of the model it names, when
      its lookups go through. */
  function BoxArrays(scene: Scene, om: OrderedMeshData): set<array<BoundingBox>>
    requires RegistriesValid(scene)
    reads scene
  {
    if MeshOutcome(scene, om, false) != Done then {} else {scene.Model(om.modelName.value).value.tempBoxes}
  }

  /** The box the light is fitted to for one ordered mesh: entry meshID of its model's current
      boxes when the lookups go through (an empty box otherwise, which no draw reaches). */
  ghost function FittedBox(scene: Scene, om: OrderedMeshData): BoundingBox
    requires RegistriesValid(scene)
    reads scene, BoxArrays(scene, om)
  {
    if MeshOutcome(scene, om, false) != Done then BoundingBox(Zero3, Zero3)
    else scene.Model(om.modelName.value).value.tempBoxes[om.meshID]
  }

  /** The box arrays the boxes of a run of ordered meshes are read from. */
  function BoxesOf(scene: Scene, oms: seq<OrderedMeshData>): set<array<BoundingBox>>
    requires RegistriesValid(scene)
    reads scene
  {
    if oms == [] then {} else BoxesOf(scene, oms[..|oms| - 1]) + BoxArrays(scene, oms[|oms| - 1])
  }

  /** The boxes of a run of ordered meshes, one per mesh. */
  ghost function FittedBoxes(scene: Scene, oms: seq<OrderedMeshData>): seq<BoundingBox>
    requires RegistriesValid(scene)
    reads scene, BoxesOf(scene, oms)
  {
    if oms == [] then []
    else FittedBoxes(scene, oms[..|oms| - 1]) + [FittedBox(scene, oms[|oms| - 1])]
  }

  /** Mesh k's entry is mesh k's box. */
  lemma {:induction false} FittedBoxesAt(scene: Scene, oms: seq<OrderedMeshData>, k: int)
    requires RegistriesValid(scene) && 0 <= k < |oms|
    ensures |FittedBoxes(scene, oms)| == |oms|
    ensures FittedBoxes(scene, oms)[k] == FittedBox(scene, oms[k])
  {
    if k < |oms| - 1 {
      FittedBoxesAt(scene, oms[..|oms| - 1], k);
    } else if |oms| > 1 {
      FittedBoxesAt(scene, oms[..|oms| - 1], 0);
    }
  }

  /** FittedBoxesAt for every mesh at once. */
  lemma FittedBoxesAll(scene: Scene, oms: seq<OrderedMeshData>)
    requires RegistriesValid(scene)
    ensures |FittedBoxes(scene, oms)| == |oms|
    ensures forall k | 0 <= k < |oms| :: FittedBoxes(scene, oms)[k] == FittedBox(scene, oms[k])
  {
    if oms != [] {
      FittedBoxesAt(scene, oms, 0);
    }
    forall k | 0 <= k < |oms|
      ensures FittedBoxes(scene, oms)[k] == FittedBox(scene, oms[k])
    {
      FittedBoxesAt(scene, oms, k);
    }
  }

  /** The light view-projection matrix fitted to a box: the light's view and projection fitted
      to the box's corners turned into light space. */
  function ViewProjOf(lib: Library, direction: Vec3, box: BoundingBox): Matrix {
    var rotated := Rotated(Corners(box), LightRotation(lib, direction));
    Mul(LightView(lib, direction, rotated), LightProjection(lib, rotated))
  }

  /** vps holds, entry by entry, the light matrix fitted to the matching box. */
  predicate Fitted(lib: Library, direction: Vec3, boxes: seq<BoundingBox>, vps: seq<Matrix>) {
    |vps| == |boxes| &&
    forall k {:trigger ViewProjOf(lib, direction, boxes[k])} | 0 <= k < |boxes| :: vps[k] == ViewProjOf(lib, direction, boxes[k])
  }

  /** The light matrices fitted to a run of boxes. */
  function ViewProjs(lib: Library, direction: Vec3, boxes: seq<BoundingBox>): (vps: seq<Matrix>)
    ensures Fitted(lib, direction, boxes, vps)
  {
    seq(|boxes|, k requires 0 <= k < |boxes| => ViewProjOf(lib, direction, boxes[k]))
  }

  /** The lights whose shadows are drawn. */
  function Casting(lights: seq<DirectionLight>): seq<DirectionLight> {
    if lights == [] then []
    else Casting(lights[..|lights| - 1]) + (if lights[|lights| - 1].castsShadows then [lights[|lights| - 1]] else [])
  }

  /** One draw into the shadow atlas. */
  datatype DepthDraw = DepthDraw(viewport: Viewport, lightViewProj: Matrix, farClip: real)

  /** The first n draws of one light into the atlas: mesh j into tile j with its own light
      matrix. */
  predicate AtlasPrefix(draws: seq<DepthDraw>, mats: seq<Matrix>, n: int, farClip: real) {
    0 <= n <= |mats| && |draws| == n &&
    forall j | 0 <= j < n :: draws[j] == DepthDraw(TileViewport(j), mats[j], farClip)
  }

  /** All the draws of one light into the atlas, one per light matrix. */
  predicate AtlasDraws(draws: seq<DepthDraw>, mats: seq<Matrix>, farClip: real) {
    AtlasPrefix(draws, mats, |mats|, farClip)
  }

  /** DrawShadowMap's loop after j meshes: none of them failed and mesh k went to tile k. */
  ghost predicate AtlasLoop(scene: Scene, meshes: seq<OrderedMeshData>, vps: seq<Matrix>, j: int, m: int,
                            draws: seq<DepthDraw>, farClip: real)
    requires RegistriesValid(scene)
    reads scene
  {
    0 <= j <= m <= |meshes| && |vps| == m &&
    FirstFailure(scene, meshes[..j], true) == Done && AtlasPrefix(draws, vps, j, farClip)
  }

  /** ProjectShadows' loop after j meshes: none of them failed, the full batches are flushed
      and the open batch holds the rest. */
  ghost predicate ProjectLoop(scene: Scene, meshes: seq<OrderedMeshData>, vps: seq<Matrix>, j: int, m: int,
                              flushes: seq<ShadowFlush>, batch: nat, matrices: seq<Matrix>, offsets: seq<Vec2>)
    requires RegistriesValid(scene)
    reads scene
  {
    0 <= j <= m <= |meshes| && |vps| == m &&
    FirstFailure(scene, meshes[..j], false) == Done && BatchState(flushes, batch, matrices, offsets, vps, j)
  }

  /* ---------------------------------------------------------------- per-light loops */

  /** The orientation DrawShadowMaps gives the light camera before fitting it: yaw
      atan2(x, y) and pitch atan2(z, sqrt(x * x + y * y)) of the light's direction. */
  function LightOrientation(lib: Library, d: Vec3): Vec2 {
    Vec2(lib.atan2(d.x, d.y), lib.atan2(d.z, lib.sqrt(d.x * d.x + d.y * d.y)))
  }

  /** The casting lights are exactly the lights that cast shadows. */
  lemma {:induction false} CastingMembers(lights: seq<DirectionLight>)
    ensures forall l :: l in Casting(lights) <==> l in lights && l.castsShadows
  {
    if lights != [] {
      CastingMembers(lights[..|lights| - 1]);
      assert lights == lights[..|lights| - 1] + [lights[|lights| - 1]];
    }
  }

  /** The casting lights of a longer prefix: one more when the next light casts shadows. */
  lemma CastingStep(lights: seq<DirectionLight>, i: int)
    requires 0 <= i < |lights|
    ensures Casting(lights[..i + 1]) == Casting(lights[..i]) + (if lights[i].castsShadows then [lights[i]] else [])
  {
    assert lights[..i + 1][..i] == lights[..i];
  }

  /** One atlas per shadow-casting light, each that light's draws of the meshes with the given
      boxes. */
  predicate LightAtlases(maps: seq<seq<DepthDraw>>, lights: seq<DirectionLight>, lib: Library, boxes: seq<BoundingBox>, farClip: real) {
    |maps| == |lights| &&
    forall t | 0 <= t < |lights| :: AtlasDraws(maps[t], ViewProjs(lib, lights[t].direction, boxes), farClip)
  }

  /** One flush list per shadow-casting light, each covering that light's matrices for the
      meshes with the given boxes. */
  predicate LightFlushes(fls: seq<seq<ShadowFlush>>, lights: seq<DirectionLight>, lib: Library, boxes: seq<BoundingBox>) {
    |fls| == |lights| &&
    forall t | 0 <= t < |lights| :: FlushesCover(fls[t], ViewProjs(lib, lights[t].direction, boxes))
  }

  /** One more light's atlas extends the atlases of the lights before it. */
  lemma LightAtlasesAppend(maps: seq<seq<DepthDraw>>, lights: seq<DirectionLight>, draws: seq<DepthDraw>, light: DirectionLight,
                           lib: Library, boxes: seq<BoundingBox>, farClip: real)
    requires LightAtlases(maps, lights, lib, boxes, farClip)
    requires AtlasDraws(draws, ViewProjs(lib, light.direction, boxes), farClip)
    ensures LightAtlases(maps + [draws], lights + [light], lib, boxes, farClip)
  {
    forall t | 0 <= t < |lights| + 1
      ensures AtlasDraws((maps + [draws])[t], ViewProjs(lib, (lights + [light])[t].direction, boxes), farClip)
    {
      if t < |lights| {
        assert (maps + [draws])[t] == maps[t] && (lights + [light])[t] == lights[t];
      }
    }
  }

  /** One more light's flushes extend the flush lists of the lights before it. */
  lemma LightFlushesAppend(fls: seq<seq<ShadowFlush>>, lights: seq<DirectionLight>, flushes: seq<ShadowFlush>, light: DirectionLight,
                           lib: Library, boxes: seq<BoundingBox>)
    requires LightFlushes(fls, lights, lib, boxes)
    requires FlushesCover(flushes, ViewProjs(lib, light.direction, boxes))
    ensures LightFlushes(fls + [flushes], lights + [light], lib, boxes)
  {
    forall t | 0 <= t < |lights| + 1
      ensures FlushesCover((fls + [flushes])[t], ViewProjs(lib, (lights + [light])[t].direction, boxes))
    {
      if t < |lights| {
        assert (fls + [flushes])[t] == fls[t] && (lights + [light])[t] == lights[t];
      }
    }
  }

  /** A mesh whose draw through the static registry goes through also has its lookups go
      through without it: a pass over the shadow maps that succeeds leaves no failure for the
      projected shadows. */
  lemma {:induction false} StaticLookupsCoverProjected(scene: Scene, oms: seq<OrderedMeshData>)
    requires RegistriesValid(scene)
    ensures FirstFailure(scene, oms, true) == Done ==> FirstFailure(scene, oms, false) == Done
  {
    if oms != [] {
      StaticLookupsCoverProjected(scene, oms[..|oms| - 1]);
    }
  }

  /** The slot arrays after one more light: its slot changes in its own group's array only. */
  lemma ScatterStep(slots: seq<InstanceData>, lib: Library, frustum: Frustum, lights: seq<PointLight>, i: int, inner: bool)
    requires 0 <= i < |lights| && i < |slots|
    ensures Scattered(slots, lib, frustum, lights[..i], inner)[i] == slots[i]
    ensures Scattered(slots, lib, frustum, lights[..i + 1], inner) ==
      Scattered(slots, lib, frustum, lights[..i], inner)[i := if IsInner(lib, frustum, lights[i]) == inner then lights[i].instance else slots[i]]
  {
  }

  /** A group of a longer prefix: one more instance when the next light belongs to it. */
  lemma GroupStep(lib: Library, frustum: Frustum, lights: seq<PointLight>, i: int, inner: bool)
    requires 0 <= i < |lights|
    ensures Group(lib, frustum, lights[..i + 1], inner) ==
      Group(lib, frustum, lights[..i], inner) + (if IsInner(lib, frustum, lights[i]) == inner then [lights[i].instance] else [])
  {
    assert lights[..i + 1][..i] == lights[..i];
  }

  /** A group of a prefix of the lights is no larger than the group of all of them. */
  lemma {:induction false} GroupPrefix(lib: Library, frustum: Frustum, lights: seq<PointLight>, i: int, inner: bool)
    requires 0 <= i <= |lights|
    ensures |Group(lib, frustum, lights[..i], inner)| <= |Group(lib, frustum, lights, inner)|
  {
    if i < |lights| {
      GroupPrefix(lib, frustum, lights[..|lights| - 1], i, inner);
      assert lights[..|lights| - 1][..i] == lights[..i];
    } else {
      assert lights[..i] == lights;
    }
  }

  /** DrawPointLights' loop after i lights: each array holds the lights of its group at their
      own indices and the counts are the group sizes. */
  predicate PointLoop(lib: Library, frustum: Frustum, visible: seq<PointLight>, i: int, innerTotal: int, outerTotal: int,
                      inner: seq<InstanceData>, outer: seq<InstanceData>, inner0: seq<InstanceData>, outer0: seq<InstanceData>) {
    0 <= i <= |visible| &&
    innerTotal == |Group(lib, frustum, visible[..i], true)| && outerTotal == |Group(lib, frustum, visible[..i], false)| &&
    inner == Scattered(inner0, lib, frustum, visible[..i], true) && outer == Scattered(outer0, lib, frustum, visible[..i], false)
  }

  /** The compacting loop after i lights: each array starts with its group, in order. */
  predicate CompactLoop(lib: Library, frustum: Frustum, visible: seq<PointLight>, i: int, innerTotal: int, outerTotal: int,
                        inner: seq<InstanceData>, outer: seq<InstanceData>) {
    0 <= i <= |visible| && 0 <= innerTotal <= |inner| && 0 <= outerTotal <= |outer| &&
    inner[..innerTotal] == Group(lib, frustum, visible[..i], true) && outer[..outerTotal] == Group(lib, frustum, visible[..i], false)
  }

  /** The stages of the lighting pass's Draw, in the order they run. */
  datatype Stage = PriorityOrder | ShadowMaps | ProjectedShadows | DirectionalLights | PointLights

  /** The stages a frame runs when the pass has inputs: all of them, the point lights only when
      some are visible. */
  function LitStages(anyVisibleLights: bool): seq<Stage> {
    [PriorityOrder, ShadowMaps, ProjectedShadows, DirectionalLights] + (if anyVisibleLights then [PointLights] else [])
  }

  const EmptyInstance := InstanceData(ZeroMatrix, 0)

  /** BoundingBox.GetCorners into the first eight entries of an array. */
  method GetCorners(box: BoundingBox, corners: array<Vec3>)
    requires corners.Length >= 8
    modifies corners
    ensures corners[..8] == Corners(box) && corners[8..] == old(corners[8..])
  {
    var cs := Corners(box);
    forall i | 0 <= i < 8 {
      corners[i] := cs[i];
    }
  }

  /** CreateLightViewProjMatrix: turns the corners into light space in place, folds them into
      the smallest box around them and points the light camera at the box's back panel with an
      orthographic projection as large as the box. */
  method CreateLightViewProjMatrix(lib: Library, lightDirection: Vec3, lightCamera: Camera, boxCorners: array<Vec3>)
    modifies boxCorners, lightCamera`view, lightCamera`projection
    ensures boxCorners[..] == Rotated(old(boxCorners[..]), LightRotation(lib, lightDirection))
    ensures lightCamera.view == LightView(lib, lightDirection, boxCorners[..])
    ensures lightCamera.projection == LightProjection(lib, boxCorners[..])
  {
    var lightRotation := lib.lookAt(Zero3, Sub(Zero3, lightDirection), Up3);
    for i := 0 to boxCorners.Length
      invariant forall k | 0 <= k < i :: boxCorners[k] == Geometry.Transform(old(boxCorners[k]), lightRotation)
      invariant forall k | i <= k < boxCorners.Length :: boxCorners[k] == old(boxCorners[k])
    {
      boxCorners[i] := Geometry.Transform(boxCorners[i], lightRotation);
    }
    var cornerMax := FloatMin3;
    var cornerMin := FloatMax3;
    for i := 0 to boxCorners.Length
      invariant cornerMin == CornerMin(boxCorners[..i]) && cornerMax == CornerMax(boxCorners[..i])
    {
      assert boxCorners[..i + 1][..i] == boxCorners[..i];
      cornerMin := Min3(cornerMin, boxCorners[i]);
      cornerMax := Max3(cornerMax, boxCorners[i]);
    }
    assert boxCorners[..boxCorners.Length] == boxCorners[..];
    var lightBox := BoundingBox(cornerMin, cornerMax);
    var boxSize := Sub(lightBox.max, lightBox.min);
    var halfBoxSize := Scale(boxSize, 0.5);
    var lightPosition := Add(lightBox.min, halfBoxSize);
    lightPosition := lightPosition.(z := lightBox.min.z);
    lightPosition := Geometry.Transform(lightPosition, lib.invert(lightRotation));
    lightCamera.SetView(lib.lookAt(lightPosition, Add(lightPosition, lightDirection), Up3));
    lightCamera.SetProjection(lib.orthographic(boxSize.x, boxSize.y, -boxSize.z, boxSize.z * ProjectionScale));
  }

  /** SetCommonParameters: binds the camera's matrices and the first two input targets, the
      normal map and the depth map, to the directional-light effect; with fewer than two
      targets the array index runs past the end. Only that outcome is modelled. */
  function SetCommonParameters(targets: seq<Rendering.RenderTarget>): (r: Outcome)
    ensures r == Done <==> |targets| >= 2
    ensures r != Done ==> r == Failed(IndexOutOfRange)
  {
    if |targets| < 2 then Failed(IndexOutOfRange) else Done
  }

  /* ---------------------------------------------------------------- the pass */

  class LightShader {
    /** The BaseRenderer part: its inputTargets decide whether Draw does anything. */
    const base: Rendering.BaseRenderer
    const lightCamera: Camera
    const lightViewProj: array<Matrix>
    const mapOffsets: array<Vec2>
    const tempCorners: array<Vec3>
    const innerLights: array<InstanceData>
    const outerLights: array<InstanceData>
    /** The boxes of the ordered meshes the shadow stages last fitted the lights to. */
    ghost var shadowBoxes: seq<BoundingBox>
    /** Per shadow-casting light, the draws into the atlas. */
    var shadowMaps: seq<seq<DepthDraw>>
    /** Per shadow-casting light, the flushes of its projected shadows. */
    var projectedShadows: seq<seq<ShadowFlush>>
    /** The directional lights drawn as full-screen quads. */
    var directionalQuads: seq<DirectionLight>
    /** The instanced point-light draws. */
    var lightGroups: seq<LightGroupDraw>
    /** The point-light effect's lightIntensity parameter. */
    var pointLightIntensity: real
    /** The rasterizer state: true while clockwise triangles are culled. */
    var cullClockwise: bool

    /** The pass's arrays have the sizes the constructor gives them; these never change. */
    ghost predicate ArraysSized() {
      lightViewProj.Length == ShadowBatchSize && mapOffsets.Length == ShadowBatchSize &&
      tempCorners.Length == 8 && innerLights.Length == LightCapacity && outerLights.Length == LightCapacity &&
      innerLights != outerLights
    }

    ghost predicate Valid()
      reads lightCamera`frustumMatrix
    {
      ArraysSized() && lightCamera.frustumMatrix.Some?
    }

    /** The LightShader constructor: a light camera set up for 384-pixel tiles, twelve-entry
        batch arrays, eight corners and two 1000-slot point-light arrays. */
    constructor (lib: Library, base: Rendering.BaseRenderer)
      ensures Valid() && this.base == base
      ensures fresh(lightCamera) && fresh(lightViewProj) && fresh(mapOffsets) && fresh(tempCorners)
      ensures fresh(innerLights) && fresh(outerLights)
      ensures lightCamera.viewAspect == Vec2(ShadowMapSize as real, ShadowMapSize as real)
      ensures innerLights[..] == seq(LightCapacity, _ => EmptyInstance)
      ensures outerLights[..] == seq(LightCapacity, _ => EmptyInstance)
      ensures shadowMaps == [] && projectedShadows == [] && directionalQuads == [] && lightGroups == []
    {
      this.base := base;
      var cam := new Camera();
      cam.Initialize(lib, ShadowMapSize as real, ShadowMapSize as real);
      lightCamera := cam;
      lightViewProj := new Matrix[ShadowBatchSize];
      mapOffsets := new Vec2[ShadowBatchSize];
      tempCorners := new Vec3[8];
      innerLights := new InstanceData[LightCapacity](_ => EmptyInstance);
      outerLights := new InstanceData[LightCapacity](_ => EmptyInstance);
      shadowMaps, projectedShadows, directionalQuads, lightGroups := [], [], [], [];
      shadowBoxes := [];
      pointLightIntensity := 0.0;
      cullClockwise := false;
    }

    /** Draw: with input targets, the meshes are put in priority order, the common effect
        parameters are bound to the first two targets, the shadow maps and the projected shadows
        are drawn, then the directional lights, and the point lights when any are visible; an
        exception in a stage ends the frame there. Without input targets the pass draws nothing. */
    method Draw(lib: Library, scene: Scene, camera: Camera) returns (r: Outcome, ran: seq<Stage>)
      requires Valid() && scene.Valid() && camera.frustumMatrix.Some? && camera != lightCamera
      modifies scene`orderedMeshes, scene`visibleMeshes, scene`culledMeshes
      modifies (set m | m in scene.staticModels.values)`visibleMeshes, SceneRendering.BoxBuffers(scene.staticModels.values)
      modifies (set m | m in scene.skinnedModels.values)`visibleMeshes, SceneRendering.BoxBuffers(scene.skinnedModels.values)
      modifies (set m | m in scene.blendModels.values)`visibleMeshes, SceneRendering.BoxBuffers(scene.blendModels.values)
      modifies tempCorners, lightViewProj, mapOffsets, innerLights, outerLights
      modifies lightCamera`view, lightCamera`projection, lightCamera`targetRotation, lightCamera`targetArc
      modifies lightCamera`oldView, lightCamera`oldProjection, lightCamera`frustumMatrix
      modifies this`shadowMaps, this`projectedShadows, this`directionalQuads, this`shadowBoxes
      modifies this`lightGroups, this`pointLightIntensity, this`cullClockwise
      ensures old(base.inputTargets) == None ==> r == Done && ran == []
      ensures ran <= LitStages(old(scene.TotalLights()) > 0)
      ensures r == Done && old(base.inputTargets).Some? ==>
        ran == LitStages(old(scene.TotalLights()) > 0) && |old(base.inputTargets).value| >= 2
      ensures old(base.inputTargets).Some? && |old(base.inputTargets).value| < 2 ==>
        r != Done && ran <= [PriorityOrder] && (ran == [PriorityOrder] ==> r == Failed(IndexOutOfRange))
      ensures ran != [] ==> SceneRendering.ByPriority(scene.orderedMeshes)
      ensures r == Done && old(base.inputTargets).Some? ==>
        ShadowsDrawn(lib, scene) &&
        LightsDrawn(lib, scene, old(camera.Frustum(lib)), old(scene.TotalLights()) > 0,
                    old(innerLights[..]), old(outerLights[..]), old(lightGroups))
      ensures r == Done && old(base.inputTargets).Some? ==>
        scene.visibleMeshes == old(SceneRendering.AllVisible(camera.Frustum(lib), scene)) &&
        scene.visibleMeshes + scene.culledMeshes == old(SceneRendering.TotalMeshes(scene))
      ensures r == Done && old(base.inputTargets).Some? ==>
        var oms := scene.orderedMeshes;
        SceneRendering.ByPriority(oms) && |shadowBoxes| == Capped(|oms|) &&
        forall k | 0 <= k < |shadowBoxes| :: shadowBoxes[k] == old(FittedBox(scene, oms[k]))
    {
      r, ran := Done, [];
      if base.inputTargets == None {
        return;
      }
      // No stage changes the visible lights or the camera's frustum, so both are read up front.
      var anyLights, frustum := scene.TotalLights() > 0, camera.Frustum(lib);
      ghost var models := scene.staticModels.values + scene.skinnedModels.values + scene.blendModels.values;
      ghost var input := SceneRendering.CullInput(scene.staticModels, scene.skinnedModels, scene.blendModels,
                                                  SceneRendering.Matrices(models));
      SceneRendering.MatricesAt(models);
      SceneRendering.AllVisibleInput(frustum, scene, input);
      r, ran := RunStages(lib, scene, camera.position, frustum, anyLights, base.inputTargets.value,
                          innerLights[..], outerLights[..], lightGroups, input);
    }

    /** What the two shadow stages leave: one atlas and one flush list per shadow-casting
        light, both drawn for the boxes of the first (at most MaxShadowMeshes) ordered meshes. */
    ghost predicate ShadowsDrawn(lib: Library, scene: Scene)
      reads this`shadowBoxes, this`shadowMaps, this`projectedShadows
      reads scene`directionalLights, scene`orderedMeshes, lightCamera`farSplitPlaneDistance
    {
      var lights := Casting(scene.directionalLights);
      |shadowBoxes| == Capped(|scene.orderedMeshes|) &&
      LightAtlases(shadowMaps, lights, lib, shadowBoxes, lightCamera.farSplitPlaneDistance) &&
      LightFlushes(projectedShadows, lights, lib, shadowBoxes)
    }

    /** What the light stages leave: every directional light drawn as a quad, and the point
        lights drawn when any are visible (no point-light draw otherwise). */
    ghost predicate LightsDrawn(lib: Library, scene: Scene, frustum: Frustum, anyLights: bool,
                                inner0: seq<InstanceData>, outer0: seq<InstanceData>, groups0: seq<LightGroupDraw>)
      reads this`directionalQuads, this`lightGroups, this`pointLightIntensity, innerLights, outerLights
      reads scene`directionalLights, scene`pointLights, scene`visibleLights
    {
      directionalQuads == scene.directionalLights &&
      if anyLights then PointLightsDrawn(lib, scene, frustum, inner0, outer0, groups0) else lightGroups == groups0
    }

    /** The stages of Draw in order, each run only when the ones before it did not throw; the
        stages that completed, which are a prefix of the lit stages and all of them on success. */
    method RunStages(lib: Library, scene: Scene, camPos: Vec3, frustum: Frustum, anyLights: bool,
                     targets: seq<Rendering.RenderTarget>, ghost inner0: seq<InstanceData>, ghost outer0: seq<InstanceData>, ghost groups0: seq<LightGroupDraw>,
                     ghost input: SceneRendering.CullInput)
      returns (r: Outcome, ran: seq<Stage>)
      requires Valid() && scene.Valid() && SceneRendering.InputOf(scene, input)
      requires innerLights[..] == inner0 && outerLights[..] == outer0 && lightGroups == groups0
      modifies scene`orderedMeshes, scene`visibleMeshes, scene`culledMeshes
      modifies (set m | m in scene.staticModels.values)`visibleMeshes, SceneRendering.BoxBuffers(scene.staticModels.values)
      modifies (set m | m in scene.skinnedModels.values)`visibleMeshes, SceneRendering.BoxBuffers(scene.skinnedModels.values)
      modifies (set m | m in scene.blendModels.values)`visibleMeshes, SceneRendering.BoxBuffers(scene.blendModels.values)
      modifies tempCorners, lightViewProj, mapOffsets, innerLights, outerLights
      modifies lightCamera`view, lightCamera`projection, lightCamera`targetRotation, lightCamera`targetArc
      modifies lightCamera`oldView, lightCamera`oldProjection, lightCamera`frustumMatrix
      modifies this`shadowMaps, this`projectedShadows, this`directionalQuads, this`shadowBoxes
      modifies this`lightGroups, this`pointLightIntensity, this`cullClockwise
      ensures ran <= LitStages(anyLights)
      ensures r == Done ==> ran == LitStages(anyLights) && |targets| >= 2
      ensures |targets| < 2 ==> r != Done && ran <= [PriorityOrder] && (ran == [PriorityOrder] ==> r == Failed(IndexOutOfRange))
      ensures ran != [] ==> SceneRendering.ByPriority(scene.orderedMeshes)
      ensures r == Done ==>
        ShadowsDrawn(lib, scene) && LightsDrawn(lib, scene, frustum, anyLights, inner0, outer0, groups0)
      ensures r == Done ==>
        scene.visibleMeshes == SceneRendering.InputVisible(frustum, input) &&
        scene.visibleMeshes + scene.culledMeshes == SceneRendering.InputMeshes(input)
      ensures r == Done ==>
        var oms := scene.orderedMeshes;
        SceneRendering.ByPriority(oms) && |shadowBoxes| == Capped(|oms|) &&
        forall k | 0 <= k < |shadowBoxes| :: shadowBoxes[k] == old(FittedBox(scene, oms[k]))
    {
      r := OrderMeshes(lib, scene, camPos);
      if r != Done {
        return r, [];
      }
      r := SetCommonParameters(targets);
      if r != Done {
        return r, [PriorityOrder];
      }
      ghost var boxes := FittedBoxes(scene, scene.orderedMeshes[..Capped(|scene.orderedMeshes|)]);
      FittedBoxesAll(scene, scene.orderedMeshes[..Capped(|scene.orderedMeshes|)]);
      r, ran := OrderedStages(lib, scene, frustum, anyLights, inner0, outer0, groups0, input, boxes);
    }

    /** The stages after the meshes are ordered. */
    method OrderedStages(lib: Library, scene: Scene, frustum: Frustum, anyLights: bool,
                         ghost inner0: seq<InstanceData>, ghost outer0: seq<InstanceData>, ghost groups0: seq<LightGroupDraw>,
                         ghost input: SceneRendering.CullInput, ghost boxes: seq<BoundingBox>)
      returns (r: Outcome, ran: seq<Stage>)
      requires Valid() && scene.Valid() && SceneRendering.InputOf(scene, input)
      requires innerLights[..] == inner0 && outerLights[..] == outer0 && lightGroups == groups0
      requires boxes == FittedBoxes(scene, scene.orderedMeshes[..Capped(|scene.orderedMeshes|)])
      modifies scene`visibleMeshes, scene`culledMeshes
      modifies (set m | m in scene.staticModels.values)`visibleMeshes, SceneRendering.BoxBuffers(scene.staticModels.values)
      modifies (set m | m in scene.skinnedModels.values)`visibleMeshes, SceneRendering.BoxBuffers(scene.skinnedModels.values)
      modifies (set m | m in scene.blendModels.values)`visibleMeshes, SceneRendering.BoxBuffers(scene.blendModels.values)
      modifies tempCorners, lightViewProj, mapOffsets, innerLights, outerLights
      modifies lightCamera`view, lightCamera`projection, lightCamera`targetRotation, lightCamera`targetArc
      modifies lightCamera`oldView, lightCamera`oldProjection, lightCamera`frustumMatrix
      modifies this`shadowMaps, this`projectedShadows, this`directionalQuads, this`shadowBoxes
      modifies this`lightGroups, this`pointLightIntensity, this`cullClockwise
      ensures ran <= LitStages(anyLights) && 0 < |ran|
      ensures r == Done ==> ran == LitStages(anyLights)
      ensures r == Done ==>
        ShadowsDrawn(lib, scene) && LightsDrawn(lib, scene, frustum, anyLights, inner0, outer0, groups0)
      ensures r == Done ==>
        scene.visibleMeshes == SceneRendering.InputVisible(frustum, input) &&
        scene.visibleMeshes + scene.culledMeshes == SceneRendering.InputMeshes(input)
      ensures scene.orderedMeshes == old(scene.orderedMeshes) && shadowBoxes == boxes
    {
      var shadowMapsDrawn;
      r, shadowMapsDrawn := ShadowStages(lib, scene, input, boxes);
      if r != Done {
        return r, if shadowMapsDrawn then [PriorityOrder, ShadowMaps] else [PriorityOrder];
      }
      r := LightStages(lib, scene, frustum, anyLights, input);
      if r != Done {
        return r, [PriorityOrder, ShadowMaps, ProjectedShadows, DirectionalLights];
      }
      ran := LitStages(anyLights);
    }

    /** Draw's light stages: the directional lights, then the point lights when any are
        visible. */
    method LightStages(lib: Library, scene: Scene, frustum: Frustum, anyLights: bool, ghost input: SceneRendering.CullInput)
      returns (r: Outcome)
      requires ArraysSized() && scene.Valid() && SceneRendering.InputOf(scene, input)
      modifies scene`visibleMeshes, scene`culledMeshes
      modifies (set m | m in scene.staticModels.values)`visibleMeshes, SceneRendering.BoxBuffers(scene.staticModels.values)
      modifies (set m | m in scene.skinnedModels.values)`visibleMeshes, SceneRendering.BoxBuffers(scene.skinnedModels.values)
      modifies (set m | m in scene.blendModels.values)`visibleMeshes, SceneRendering.BoxBuffers(scene.blendModels.values)
      modifies innerLights, outerLights, this`directionalQuads
      modifies this`lightGroups, this`pointLightIntensity, this`cullClockwise
      ensures r != Done ==> anyLights
      ensures r == Done ==>
        LightsDrawn(lib, scene, frustum, anyLights, old(innerLights[..]), old(outerLights[..]), old(lightGroups))
      ensures scene.visibleMeshes == SceneRendering.InputVisible(frustum, input) &&
        scene.visibleMeshes + scene.culledMeshes == SceneRendering.InputMeshes(input)
      ensures unchanged(scene`directionalLights, scene`orderedMeshes, lightCamera`farSplitPlaneDistance)
    {
      DirectionalStage(scene, frustum, input);
      r := Done;
      if anyLights {
        r := DrawPointLights(lib, scene, frustum);
      }
    }

    /** Draw's first stage: SceneRenderer.IgnoreCulling, after which the ordered meshes are
        again one per static mesh unless it threw. */
    method OrderMeshes(lib: Library, scene: Scene, camPos: Vec3) returns (r: Outcome)
      requires scene.Valid()
      modifies scene`orderedMeshes, scene`visibleMeshes, scene`culledMeshes
      modifies (set m | m in scene.staticModels.values)`visibleMeshes, (set m | m in scene.skinnedModels.values)`visibleMeshes
      ensures r == Done ==> scene.Valid() && SceneRendering.ByPriority(scene.orderedMeshes)
      ensures unchanged(this, innerLights, outerLights)
      ensures SceneRendering.PosesKept(scene)
      ensures RegistriesValid(scene) && forall om :: FittedBox(scene, om) == old(FittedBox(scene, om))
    {
      r := PriorityOrderStage(lib, scene, camPos);
    }

    /** IgnoreCulling as Draw calls it: on success the scene is again consistent, with the
        ordered meshes in priority order. */
    method PriorityOrderStage(lib: Library, scene: Scene, camPos: Vec3) returns (r: Outcome)
      requires scene.Valid()
      modifies scene`orderedMeshes, scene`visibleMeshes, scene`culledMeshes
      modifies (set m | m in scene.staticModels.values)`visibleMeshes, (set m | m in scene.skinnedModels.values)`visibleMeshes
      ensures r == Done ==> scene.Valid() && SceneRendering.ByPriority(scene.orderedMeshes)
    {
      ghost var statics := SceneRendering.AllRecords(lib, camPos, scene.staticModels, SceneRendering.Poses(scene.staticModels.values));
      ghost var count := MeshCount(scene.staticModels.values);
      assert |statics| == count;
      r := SceneRendering.IgnoreCulling(scene, lib, camPos);
      assert r == Done ==> |scene.orderedMeshes| == count;
    }

    /** Draw's two shadow stages; whether the first completed. */
    method ShadowStages(lib: Library, scene: Scene, ghost input: SceneRendering.CullInput, ghost boxes: seq<BoundingBox>)
      returns (r: Outcome, shadowMapsDrawn: bool)
      requires Valid() && RegistriesValid(scene) && SceneRendering.InputOf(scene, input)
      requires boxes == FittedBoxes(scene, scene.orderedMeshes[..Capped(|scene.orderedMeshes|)])
      modifies tempCorners, lightCamera`view, lightCamera`projection, lightCamera`targetRotation, lightCamera`targetArc
      modifies lightCamera`oldView, lightCamera`oldProjection, lightCamera`frustumMatrix, this`shadowMaps
      modifies this`shadowBoxes, lightViewProj, mapOffsets, this`projectedShadows
      ensures Valid()
      ensures r == Done ==> shadowMapsDrawn && ShadowsDrawn(lib, scene)
      ensures shadowBoxes == boxes
      ensures scene.orderedMeshes == old(scene.orderedMeshes) && SceneRendering.InputOf(scene, input)
    {
      r := ShadowMapStage(lib, scene);
      shadowMapsDrawn := r == Done;
      if shadowMapsDrawn {
        r := ProjectedShadowStage(lib, scene);
      }
    }

    /** Draw's shadow-map stage: DrawShadowMaps, whose atlases the pass keeps. */
    method ShadowMapStage(lib: Library, scene: Scene) returns (r: Outcome)
      requires Valid() && RegistriesValid(scene)
      modifies tempCorners, lightCamera`view, lightCamera`projection, lightCamera`targetRotation, lightCamera`targetArc
      modifies lightCamera`oldView, lightCamera`oldProjection, lightCamera`frustumMatrix, this`shadowMaps
      modifies this`shadowBoxes
      ensures Valid()
      ensures shadowBoxes == old(FittedBoxes(scene, scene.orderedMeshes[..Capped(|scene.orderedMeshes|)]))
      ensures |shadowBoxes| == Capped(|scene.orderedMeshes|)
      ensures forall k | 0 <= k < |shadowBoxes| :: shadowBoxes[k] == FittedBox(scene, scene.orderedMeshes[k])
      ensures r == Done ==>
        LightAtlases(shadowMaps, Casting(scene.directionalLights), lib, shadowBoxes, lightCamera.farSplitPlaneDistance)
    {
      var maps;
      r, maps := DrawShadowMaps(lib, scene);
      shadowBoxes := old(FittedBoxes(scene, scene.orderedMeshes[..Capped(|scene.orderedMeshes|)]));
      if r == Done {
        shadowMaps := maps;
      }
    }

    /** Draw's projected-shadow stage: DrawProjectedShadows, whose flushes the pass keeps. */
    method ProjectedShadowStage(lib: Library, scene: Scene) returns (r: Outcome)
      requires Valid() && RegistriesValid(scene)
      requires |shadowBoxes| == Capped(|scene.orderedMeshes|)
      requires forall k | 0 <= k < |shadowBoxes| :: shadowBoxes[k] == FittedBox(scene, scene.orderedMeshes[k])
      modifies tempCorners, lightCamera`view, lightCamera`projection, lightViewProj, mapOffsets, this`projectedShadows
      ensures Valid()
      ensures r == Done ==> LightFlushes(projectedShadows, Casting(scene.directionalLights), lib, shadowBoxes)
    {
      FittedBoxesAll(scene, scene.orderedMeshes[..Capped(|scene.orderedMeshes|)]);
      assert shadowBoxes == FittedBoxes(scene, scene.orderedMeshes[..Capped(|scene.orderedMeshes|)]);
      var flushes;
      r, flushes := DrawProjectedShadows(lib, scene);
      if r == Done {
        projectedShadows := flushes;
      }
    }

    /** Draw's directional-light stage, with the registries and the ordered meshes kept. */
    method DirectionalStage(scene: Scene, frustum: Frustum, ghost input: SceneRendering.CullInput)
      requires scene.Valid() && SceneRendering.InputOf(scene, input)
      modifies scene`visibleMeshes, scene`culledMeshes
      modifies (set m | m in scene.staticModels.values)`visibleMeshes, SceneRendering.BoxBuffers(scene.staticModels.values)
      modifies (set m | m in scene.skinnedModels.values)`visibleMeshes, SceneRendering.BoxBuffers(scene.skinnedModels.values)
      modifies (set m | m in scene.blendModels.values)`visibleMeshes, SceneRendering.BoxBuffers(scene.blendModels.values)
      modifies this`directionalQuads
      ensures scene.Valid() && directionalQuads == scene.directionalLights
      ensures scene.visibleMeshes == SceneRendering.InputVisible(frustum, input) &&
        scene.visibleMeshes + scene.culledMeshes == SceneRendering.InputMeshes(input)
      ensures innerLights[..] == old(innerLights[..]) && outerLights[..] == old(outerLights[..])
      ensures unchanged(scene`directionalLights, scene`pointLights, scene`visibleLights, scene`orderedMeshes)
      ensures unchanged(lightCamera`farSplitPlaneDistance)
    {
      SceneRendering.AllVisibleInput(frustum, scene, input);
      DrawDirectionalLights(scene, frustum);
    }

    /** DrawDirectionalLights: the scene's models are culled against the camera's frustum, then
        every directional light, casting shadows or not, is drawn as a full-screen quad. */
    method DrawDirectionalLights(scene: Scene, frustum: Frustum)
      requires scene.Valid()
      modifies scene`visibleMeshes, scene`culledMeshes
      modifies (set m | m in scene.staticModels.values)`visibleMeshes, SceneRendering.BoxBuffers(scene.staticModels.values)
      modifies (set m | m in scene.skinnedModels.values)`visibleMeshes, SceneRendering.BoxBuffers(scene.skinnedModels.values)
      modifies (set m | m in scene.blendModels.values)`visibleMeshes, SceneRendering.BoxBuffers(scene.blendModels.values)
      modifies this`directionalQuads
      ensures scene.visibleMeshes == old(SceneRendering.AllVisible(frustum, scene))
      ensures scene.visibleMeshes + scene.culledMeshes == old(SceneRendering.TotalMeshes(scene))
      ensures directionalQuads == scene.directionalLights
    {
      SceneRendering.CullModelMeshes(scene, frustum);
      directionalQuads := scene.directionalLights;
    }

    /** What DrawPointLights leaves when it does not throw, from slot arrays `inner0`, `outer0`
        and draws `groups0`: the first light's intensity, each visible light scattered to its
        own slot of its group's array, and the two groups' draws appended. */
    ghost predicate PointLightsDrawn(lib: Library, scene: Scene, frustum: Frustum, inner0: seq<InstanceData>,
                                     outer0: seq<InstanceData>, groups0: seq<LightGroupDraw>)
      reads this`lightGroups, this`pointLightIntensity, innerLights, outerLights, scene`pointLights, scene`visibleLights
    {
      var visible := scene.visibleLights;
      var innerTotal := |Group(lib, frustum, visible, true)|;
      var outerTotal := |Group(lib, frustum, visible, false)|;
      scene.pointLights != [] && pointLightIntensity == scene.pointLights[0].intensity &&
      innerTotal <= innerLights.Length && outerTotal <= outerLights.Length &&
      innerLights[..] == Scattered(inner0, lib, frustum, visible, true) &&
      outerLights[..] == Scattered(outer0, lib, frustum, visible, false) &&
      lightGroups == groups0 + GroupDraws(innerLights[..innerTotal], true) + GroupDraws(outerLights[..outerTotal], false)
    }

    /** DrawPointLights: the effect takes the first scene light's intensity, each visible light
        goes to slot totalLights (its index among the visible lights) of the inner or the outer
        array by the near-plane test, and the inner group's count of slots is drawn culling
        clockwise triangles, the outer group's count culling counter-clockwise ones. A scene
        without lights, or a 1001st visible light, throws. */
    method DrawPointLights(lib: Library, scene: Scene, frustum: Frustum) returns (r: Outcome)
      requires ArraysSized()
      modifies innerLights, outerLights, this`lightGroups, this`pointLightIntensity, this`cullClockwise
      ensures unchanged(scene)
      ensures var visible := scene.VisiblePointLights();
        r == (if scene.pointLights == [] || |visible| > LightCapacity then Failed(IndexOutOfRange) else Done)
      ensures r == Done ==> PointLightsDrawn(lib, scene, frustum, old(innerLights[..]), old(outerLights[..]), old(lightGroups))
    {
      if scene.pointLights == [] {
        return Failed(IndexOutOfRange);
      }
      pointLightIntensity := scene.pointLights[0].intensity;
      var visible := scene.VisiblePointLights();
      var innerTotal, outerTotal := 0, 0;
      var i := 0;
      while i < |visible|
        invariant i <= LightCapacity && pointLightIntensity == scene.pointLights[0].intensity
        modifies innerLights, outerLights
        invariant PointLoop(lib, frustum, visible, i, innerTotal, outerTotal, innerLights[..], outerLights[..],
                            old(innerLights[..]), old(outerLights[..]))
      {
        if i >= LightCapacity {
          return Failed(IndexOutOfRange);
        }
        innerTotal, outerTotal := SortLight(lib, frustum, visible, i, innerTotal, outerTotal, old(innerLights[..]), old(outerLights[..]));
        i := i + 1;
      }
      assert visible[..i] == visible;
      ghost var inner, outer := innerLights[..innerTotal], outerLights[..outerTotal];
      r := DrawLightGroups(innerTotal, outerTotal);
      assert innerLights[..innerTotal] == inner && outerLights[..outerTotal] == outer;
    }

    /** One light of DrawPointLights' loop: light i is written to slot i of its group's array
        and that group's count goes up. */
    method SortLight(lib: Library, frustum: Frustum, visible: seq<PointLight>, i: int, innerTotal: int, outerTotal: int,
                     ghost inner0: seq<InstanceData>, ghost outer0: seq<InstanceData>)
      returns (innerTotal': int, outerTotal': int)
      requires ArraysSized() && 0 <= i < |visible| && i < LightCapacity && |inner0| == |outer0| == LightCapacity
      requires PointLoop(lib, frustum, visible, i, innerTotal, outerTotal, innerLights[..], outerLights[..], inner0, outer0)
      modifies innerLights, outerLights
      ensures PointLoop(lib, frustum, visible, i + 1, innerTotal', outerTotal', innerLights[..], outerLights[..], inner0, outer0)
    {
      var light := visible[i];
      ScatterStep(inner0, lib, frustum, visible, i, true);
      ScatterStep(outer0, lib, frustum, visible, i, false);
      GroupStep(lib, frustum, visible, i, true);
      GroupStep(lib, frustum, visible, i, false);
      if IsInner(lib, frustum, light) {
        innerLights[i] := light.instance;
        innerTotal', outerTotal' := innerTotal + 1, outerTotal;
      } else {
        outerLights[i] := light.instance;
        innerTotal', outerTotal' := innerTotal, outerTotal + 1;
      }
    }

    /** The end of DrawPointLights: the inner group drawn culling clockwise triangles, then the
        outer group culling counter-clockwise ones; counts within the arrays never throw. */
    method DrawLightGroups(innerTotal: int, outerTotal: int) returns (r: Outcome)
      requires ArraysSized() && 0 <= innerTotal <= LightCapacity && 0 <= outerTotal <= LightCapacity
      modifies this`lightGroups, this`cullClockwise
      ensures r == Done && !cullClockwise
      ensures lightGroups == old(lightGroups) + GroupDraws(innerLights[..innerTotal], true) + GroupDraws(outerLights[..outerTotal], false)
    {
      cullClockwise := true;
      r := DrawLightGroup(innerLights, innerTotal);
      cullClockwise := false;
      r := DrawLightGroup(outerLights, outerTotal);
    }

    /** DrawLightGroup: an empty group draws nothing; otherwise the first total slots are
        uploaded and drawn as one instanced draw under the current culling mode. More slots
        than the array holds throws. */
    method DrawLightGroup(lights: array<InstanceData>, total: int) returns (r: Outcome)
      modifies this`lightGroups
      ensures r == (if total > lights.Length then Failed(IndexOutOfRange) else Done)
      ensures lightGroups == old(lightGroups) + (if 0 < total <= lights.Length then [LightGroupDraw(lights[..total], cullClockwise)] else [])
    {
      r := Done;
      if total <= 0 {
        return;
      }
      if total > lights.Length {
        return Failed(IndexOutOfRange);
      }
      lightGroups := lightGroups + [LightGroupDraw(lights[..total], cullClockwise)];
    }

    /** DrawPointLights with each light stored at its own group's count instead of the running
        total: each array then starts with its group, so the slots uploaded are exactly the
        inner and the outer lights. A group past the arrays' capacity throws. */
    method DrawPointLightsCompacted(lib: Library, scene: Scene, frustum: Frustum) returns (r: Outcome)
      requires ArraysSized()
      modifies innerLights, outerLights, this`lightGroups, this`pointLightIntensity, this`cullClockwise
      ensures var visible := scene.VisiblePointLights();
        r == (if scene.pointLights == [] || |Group(lib, frustum, visible, true)| > LightCapacity ||
                 |Group(lib, frustum, visible, false)| > LightCapacity
              then Failed(IndexOutOfRange) else Done)
      ensures r == Done ==>
        var visible := scene.VisiblePointLights();
        var inner := Group(lib, frustum, visible, true);
        var outer := Group(lib, frustum, visible, false);
        pointLightIntensity == scene.pointLights[0].intensity &&
        innerLights[..|inner|] == inner && outerLights[..|outer|] == outer &&
        lightGroups == old(lightGroups) + GroupDraws(inner, true) + GroupDraws(outer, false)
    {
      if scene.pointLights == [] {
        return Failed(IndexOutOfRange);
      }
      pointLightIntensity := scene.pointLights[0].intensity;
      var visible := scene.VisiblePointLights();
      var innerTotal, outerTotal := 0, 0;
      var i := 0;
      while i < |visible|
        invariant pointLightIntensity == scene.pointLights[0].intensity
        modifies innerLights, outerLights
        invariant CompactLoop(lib, frustum, visible, i, innerTotal, outerTotal, innerLights[..], outerLights[..])
      {
        r, innerTotal, outerTotal := CompactLight(lib, frustum, visible, i, innerTotal, outerTotal);
        if r != Done {
          return;
        }
        i := i + 1;
      }
      assert visible[..i] == visible;
      ghost var inner, outer := innerLights[..innerTotal], outerLights[..outerTotal];
      assert inner == Group(lib, frustum, visible, true) && outer == Group(lib, frustum, visible, false);
      r := DrawLightGroups(innerTotal, outerTotal);
      assert innerLights[..innerTotal] == inner && outerLights[..outerTotal] == outer;
    }

    /** One light of the compacting loop: light i is written to the next free slot of its
        group's array; a full array throws. */
    method CompactLight(lib: Library, frustum: Frustum, visible: seq<PointLight>, i: int, innerTotal: int, outerTotal: int)
      returns (r: Outcome, innerTotal': int, outerTotal': int)
      requires ArraysSized() && 0 <= i < |visible|
      requires CompactLoop(lib, frustum, visible, i, innerTotal, outerTotal, innerLights[..], outerLights[..])
      modifies innerLights, outerLights
      ensures r != Done ==>
        r == Failed(IndexOutOfRange) &&
        (|Group(lib, frustum, visible, true)| > LightCapacity || |Group(lib, frustum, visible, false)| > LightCapacity)
      ensures r == Done ==> CompactLoop(lib, frustum, visible, i + 1, innerTotal', outerTotal', innerLights[..], outerLights[..])
    {
      var light := visible[i];
      GroupStep(lib, frustum, visible, i, true);
      GroupStep(lib, frustum, visible, i, false);
      GroupPrefix(lib, frustum, visible, i + 1, true);
      GroupPrefix(lib, frustum, visible, i + 1, false);
      innerTotal', outerTotal' := innerTotal, outerTotal;
      r := Done;
      if IsInner(lib, frustum, light) {
        if innerTotal >= innerLights.Length {
          r := Failed(IndexOutOfRange);
          return;
        }
        innerLights[innerTotal] := light.instance;
        assert innerLights[..innerTotal + 1] == old(innerLights[..innerTotal]) + [light.instance];
        innerTotal' := innerTotal + 1;
      } else {
        if outerTotal >= outerLights.Length {
          r := Failed(IndexOutOfRange);
          return;
        }
        outerLights[outerTotal] := light.instance;
        assert outerLights[..outerTotal + 1] == old(outerLights[..outerTotal]) + [light.instance];
        outerTotal' := outerTotal + 1;
      }
    }

    /** DrawShadowMaps: every shadow-casting directional light in turn turns the light camera
        to itself, updates it and draws its atlas; a lookup that throws ends the pass. The
        atlases come back in the order of the casting lights. */
    method DrawShadowMaps(lib: Library, scene: Scene) returns (r: Outcome, maps: seq<seq<DepthDraw>>)
      requires Valid() && RegistriesValid(scene)
      modifies tempCorners, lightCamera`view, lightCamera`projection, lightCamera`targetRotation, lightCamera`targetArc
      modifies lightCamera`oldView, lightCamera`oldProjection, lightCamera`frustumMatrix
      ensures Valid()
      ensures var oms := scene.orderedMeshes[..Capped(|scene.orderedMeshes|)];
        r == (if Casting(scene.directionalLights) == [] then Done else FirstFailure(scene, oms, true)) &&
        (r == Done ==>
           LightAtlases(maps, Casting(scene.directionalLights), lib, old(FittedBoxes(scene, oms)), lightCamera.farSplitPlaneDistance))
      ensures var oms := scene.orderedMeshes[..Capped(|scene.orderedMeshes|)];
        |old(FittedBoxes(scene, oms))| == |oms| &&
        forall k | 0 <= k < |oms| :: old(FittedBoxes(scene, oms))[k] == FittedBox(scene, scene.orderedMeshes[k])
    {
      var lights := scene.directionalLights;
      ghost var m := Capped(|scene.orderedMeshes|);
      ghost var boxes := FittedBoxes(scene, scene.orderedMeshes[..m]);
      FittedBoxesAll(scene, scene.orderedMeshes[..m]);
      maps := [];
      r := Done;
      var i := 0;
      while i < |lights|
        invariant 0 <= i <= |lights| && Valid() && r == Done && |boxes| == m
        invariant forall k | 0 <= k < |boxes| :: boxes[k] == FittedBox(scene, scene.orderedMeshes[k])
        invariant LightAtlases(maps, Casting(lights[..i]), lib, boxes, lightCamera.farSplitPlaneDistance)
        invariant Casting(lights[..i]) != [] ==> FirstFailure(scene, scene.orderedMeshes[..m], true) == Done
      {
        CastingStep(lights, i);
        r, maps := ShadowMapLight(lib, scene, lights, i, boxes, maps);
        if r != Done {
          CastingMembers(lights);
          return;
        }
        i := i + 1;
      }
      assert lights[..i] == lights;
    }

    /** One light of DrawShadowMaps: a light that casts shadows orients and updates the light
        camera and adds its atlas; any other light changes nothing. */
    method ShadowMapLight(lib: Library, scene: Scene, lights: seq<DirectionLight>, i: int, ghost boxes: seq<BoundingBox>,
                          maps: seq<seq<DepthDraw>>)
      returns (r: Outcome, maps': seq<seq<DepthDraw>>)
      requires Valid() && RegistriesValid(scene) && 0 <= i < |lights| && |boxes| == Capped(|scene.orderedMeshes|)
      requires forall k | 0 <= k < |boxes| :: boxes[k] == FittedBox(scene, scene.orderedMeshes[k])
      requires LightAtlases(maps, Casting(lights[..i]), lib, boxes, lightCamera.farSplitPlaneDistance)
      requires Casting(lights[..i + 1]) == Casting(lights[..i]) + (if lights[i].castsShadows then [lights[i]] else [])
      modifies tempCorners, lightCamera`view, lightCamera`projection, lightCamera`targetRotation, lightCamera`targetArc
      modifies lightCamera`oldView, lightCamera`oldProjection, lightCamera`frustumMatrix
      ensures Valid()
      ensures forall k | 0 <= k < |boxes| :: boxes[k] == FittedBox(scene, scene.orderedMeshes[k])
      ensures r == (if lights[i].castsShadows then FirstFailure(scene, scene.orderedMeshes[..|boxes|], true) else Done)
      ensures r == Done ==> LightAtlases(maps', Casting(lights[..i + 1]), lib, boxes, lightCamera.farSplitPlaneDistance)
    {
      maps' := maps;
      r := Done;
      if lights[i].castsShadows {
        var draws;
        r, draws := DrawShadowMap(lib, scene, lights[i].direction, boxes);
        if r == Done {
          LightAtlasesAppend(maps, Casting(lights[..i]), draws, lights[i], lib, boxes, lightCamera.farSplitPlaneDistance);
        }
        maps' := maps + [draws];
      }
    }

    /** The light camera turned to a light and updated: its target yaw and pitch are the
        light's orientation, and the update keeps its frustum. */
    method OrientLightCamera(lib: Library, direction: Vec3)
      requires Valid()
      modifies lightCamera`targetRotation, lightCamera`targetArc, lightCamera`oldView, lightCamera`oldProjection
      modifies lightCamera`view, lightCamera`frustumMatrix
      ensures Valid()
      ensures Vec2(lightCamera.targetRotation, lightCamera.targetArc) == LightOrientation(lib, direction)
    {
      lightCamera.SetOrientation(LightOrientation(lib, direction));
      var updated := lightCamera.Update(lib);
    }

    /** DrawProjectedShadows: every shadow-casting directional light in turn projects its
        shadows in flushed batches; a lookup that throws ends the pass. The flush lists come
        back in the order of the casting lights. */
    method DrawProjectedShadows(lib: Library, scene: Scene) returns (r: Outcome, fls: seq<seq<ShadowFlush>>)
      requires Valid() && RegistriesValid(scene)
      modifies tempCorners, lightCamera`view, lightCamera`projection, lightViewProj, mapOffsets
      ensures Valid()
      ensures var oms := scene.orderedMeshes[..Capped(|scene.orderedMeshes|)];
        r == (if Casting(scene.directionalLights) == [] then Done else FirstFailure(scene, oms, false)) &&
        (r == Done ==> LightFlushes(fls, Casting(scene.directionalLights), lib, old(FittedBoxes(scene, oms))))
    {
      var lights := scene.directionalLights;
      ghost var m := Capped(|scene.orderedMeshes|);
      ghost var boxes := FittedBoxes(scene, scene.orderedMeshes[..m]);
      FittedBoxesAll(scene, scene.orderedMeshes[..m]);
      fls := [];
      r := Done;
      var i := 0;
      while i < |lights|
        invariant 0 <= i <= |lights| && Valid() && r == Done && |boxes| == m
        invariant forall k | 0 <= k < |boxes| :: boxes[k] == FittedBox(scene, scene.orderedMeshes[k])
        invariant LightFlushes(fls, Casting(lights[..i]), lib, boxes)
        invariant Casting(lights[..i]) != [] ==> FirstFailure(scene, scene.orderedMeshes[..m], false) == Done
      {
        CastingStep(lights, i);
        r, fls := ProjectLight(lib, scene, lights, i, boxes, fls);
        if r != Done {
          CastingMembers(lights);
          return;
        }
        i := i + 1;
      }
      assert lights[..i] == lights;
    }

    /** One light of DrawProjectedShadows: a light that casts shadows adds its flushes; any
        other light changes nothing. */
    method ProjectLight(lib: Library, scene: Scene, lights: seq<DirectionLight>, i: int, ghost boxes: seq<BoundingBox>,
                        fls: seq<seq<ShadowFlush>>)
      returns (r: Outcome, fls': seq<seq<ShadowFlush>>)
      requires Valid() && RegistriesValid(scene) && 0 <= i < |lights| && |boxes| == Capped(|scene.orderedMeshes|)
      requires forall k | 0 <= k < |boxes| :: boxes[k] == FittedBox(scene, scene.orderedMeshes[k])
      requires LightFlushes(fls, Casting(lights[..i]), lib, boxes)
      requires Casting(lights[..i + 1]) == Casting(lights[..i]) + (if lights[i].castsShadows then [lights[i]] else [])
      modifies tempCorners, lightCamera`view, lightCamera`projection, lightViewProj, mapOffsets
      ensures forall k | 0 <= k < |boxes| :: boxes[k] == FittedBox(scene, scene.orderedMeshes[k])
      ensures r == (if lights[i].castsShadows then FirstFailure(scene, scene.orderedMeshes[..|boxes|], false) else Done)
      ensures r == Done ==> LightFlushes(fls', Casting(lights[..i + 1]), lib, boxes)
    {
      fls' := fls;
      r := Done;
      if lights[i].castsShadows {
        var flushes;
        r, flushes := ProjectShadows(lib, scene, lights[i].direction, boxes);
        if r == Done {
          LightFlushesAppend(fls, Casting(lights[..i]), flushes, lights[i], lib, boxes);
        }
        fls' := fls + [flushes];
      }
    }

    /** DrawShadowMaps for one light: the light camera turned to the light and updated, then
        the mesh loop over at most 64 ordered meshes, the j-th drawn into tile j of the atlas
        through the static registry with the light fitted to its box; a lookup that throws ends
        the loop. boxes are the meshes' boxes, which it leaves as they are. */
    method DrawShadowMap(lib: Library, scene: Scene, direction: Vec3, ghost boxes: seq<BoundingBox>)
      returns (r: Outcome, draws: seq<DepthDraw>)
      requires Valid() && RegistriesValid(scene) && |boxes| == Capped(|scene.orderedMeshes|)
      requires forall k | 0 <= k < |boxes| :: boxes[k] == FittedBox(scene, scene.orderedMeshes[k])
      modifies tempCorners, lightCamera`view, lightCamera`projection, lightCamera`targetRotation, lightCamera`targetArc
      modifies lightCamera`oldView, lightCamera`oldProjection, lightCamera`frustumMatrix
      ensures Valid() && Vec2(lightCamera.targetRotation, lightCamera.targetArc) == LightOrientation(lib, direction)
      ensures forall k | 0 <= k < |boxes| :: boxes[k] == FittedBox(scene, scene.orderedMeshes[k])
      ensures r == FirstFailure(scene, scene.orderedMeshes[..|boxes|], true)
      ensures r == Done ==> AtlasDraws(draws, ViewProjs(lib, direction, boxes), lightCamera.farSplitPlaneDistance)
    {
      OrientLightCamera(lib, direction);
      r, draws := DrawMeshes(lib, scene, direction, scene.orderedMeshes, boxes, ViewProjs(lib, direction, boxes), |boxes|);
    }

    /** The loop of DrawShadowMap over the ordered meshes, stopping after 64 of them or at the
        first lookup that throws; boxes are the meshes' boxes and vps the lights fitted to them. */
    method DrawMeshes(lib: Library, scene: Scene, direction: Vec3, meshes: seq<OrderedMeshData>,
                      ghost boxes: seq<BoundingBox>, ghost vps: seq<Matrix>, ghost m: int)
      returns (r: Outcome, draws: seq<DepthDraw>)
      requires Valid() && RegistriesValid(scene) && m == Capped(|meshes|) && |boxes| == m
      requires forall k | 0 <= k < m :: boxes[k] == FittedBox(scene, meshes[k])
      requires Fitted(lib, direction, boxes, vps)
      modifies tempCorners, lightCamera`view, lightCamera`projection
      ensures forall k | 0 <= k < m :: boxes[k] == FittedBox(scene, meshes[k])
      ensures r == FirstFailure(scene, meshes[..m], true)
      ensures r == Done ==> AtlasDraws(draws, vps, lightCamera.farSplitPlaneDistance)
    {
      draws := [];
      r := Done;
      var j := 0;
      while j < |meshes|
        invariant Valid() && r == Done
        invariant AtlasLoop(scene, meshes, vps, j, m, draws, lightCamera.farSplitPlaneDistance)
        invariant forall k | 0 <= k < m :: boxes[k] == FittedBox(scene, meshes[k])
      {
        if j >= MaxShadowMeshes {
          break;
        }
        r, draws := ShadowMapMesh(lib, scene, direction, meshes, boxes, vps, j, m, draws);
        if r != Done {
          FirstFailureAt(scene, meshes, j, m, true);
          return;
        }
        j := j + 1;
      }
    }

    /** One pass of DrawShadowMap's loop over mesh j: its lookups and light fit, then its draw
        into tile j of the atlas. */
    method ShadowMapMesh(lib: Library, scene: Scene, direction: Vec3, meshes: seq<OrderedMeshData>,
                         ghost boxes: seq<BoundingBox>, ghost vps: seq<Matrix>, j: int, ghost m: int, draws: seq<DepthDraw>)
      returns (r: Outcome, draws': seq<DepthDraw>)
      requires Valid() && RegistriesValid(scene) && j < m
      requires AtlasLoop(scene, meshes, vps, j, m, draws, lightCamera.farSplitPlaneDistance)
      requires Fitted(lib, direction, boxes, vps) && |boxes| == m
      requires forall k | 0 <= k < m :: boxes[k] == FittedBox(scene, meshes[k])
      modifies tempCorners, lightCamera`view, lightCamera`projection
      ensures forall k | 0 <= k < m :: boxes[k] == FittedBox(scene, meshes[k])
      ensures r == MeshOutcome(scene, meshes[j], true)
      ensures r == Done ==> AtlasLoop(scene, meshes, vps, j + 1, m, draws', lightCamera.farSplitPlaneDistance)
    {
      var viewport := Viewport(ShadowMapSize * (j % 8), ShadowMapSize * (j / 8), ShadowMapSize, ShadowMapSize);
      var mat;
      r, mat := StaticMesh(lib, scene, meshes[j], direction);
      draws' := draws + [DepthDraw(viewport, mat, lightCamera.farSplitPlaneDistance)];
      if r == Done {
        FirstFailureExtend(scene, meshes, j, true);
      }
    }

    /** The mesh loop of DrawProjectedShadows for one light: at most 64 ordered meshes, the
        light matrix and tile offset of each stored at the current batch entry, the arrays
        flushed with shadowLoops 12 whenever a batch fills and once more with the remainder.
        boxes are the meshes' boxes, which it leaves as they are. */
    method ProjectShadows(lib: Library, scene: Scene, direction: Vec3, ghost boxes: seq<BoundingBox>)
      returns (r: Outcome, flushes: seq<ShadowFlush>)
      requires Valid() && RegistriesValid(scene) && |boxes| == Capped(|scene.orderedMeshes|)
      requires forall k | 0 <= k < |boxes| :: boxes[k] == FittedBox(scene, scene.orderedMeshes[k])
      modifies tempCorners, lightCamera`view, lightCamera`projection, lightViewProj, mapOffsets
      ensures forall k | 0 <= k < |boxes| :: boxes[k] == FittedBox(scene, scene.orderedMeshes[k])
      ensures r == FirstFailure(scene, scene.orderedMeshes[..|boxes|], false)
      ensures r == Done ==> FlushesCover(flushes, ViewProjs(lib, direction, boxes))
    {
      ghost var vps := ViewProjs(lib, direction, boxes);
      var batch, j;
      r, flushes, batch, j := ProjectMeshes(lib, scene, direction, scene.orderedMeshes, boxes, vps, |boxes|);
      if r == Done {
        flushes := FlushRemainder(flushes, batch, j, vps);
      }
    }

    /** The loop of ProjectShadows over the ordered meshes, stopping after 64 of them or at the
        first lookup that throws; boxes are the meshes' boxes and vps the lights fitted to them. */
    method ProjectMeshes(lib: Library, scene: Scene, direction: Vec3, meshes: seq<OrderedMeshData>,
                         ghost boxes: seq<BoundingBox>, ghost vps: seq<Matrix>, ghost m: int)
      returns (r: Outcome, flushes: seq<ShadowFlush>, batch: nat, j: int)
      requires Valid() && RegistriesValid(scene) && m == Capped(|meshes|) && |boxes| == m
      requires forall k | 0 <= k < m :: boxes[k] == FittedBox(scene, meshes[k])
      requires Fitted(lib, direction, boxes, vps)
      modifies tempCorners, lightCamera`view, lightCamera`projection, lightViewProj, mapOffsets
      ensures forall k | 0 <= k < m :: boxes[k] == FittedBox(scene, meshes[k])
      ensures r == FirstFailure(scene, meshes[..m], false)
      ensures r == Done ==> j == m && BatchState(flushes, batch, lightViewProj[..], mapOffsets[..], vps, m)
    {
      flushes := [];
      r := Done;
      batch := 0;
      j := 0;
      while j < |meshes|
        invariant Valid() && r == Done
        invariant ProjectLoop(scene, meshes, vps, j, m, flushes, batch, lightViewProj[..], mapOffsets[..])
        invariant forall k | 0 <= k < m :: boxes[k] == FittedBox(scene, meshes[k])
      {
        if j >= MaxShadowMeshes {
          break;
        }
        r, flushes, batch := ProjectMesh(lib, scene, direction, meshes, boxes, vps, j, m, flushes, batch);
        if r != Done {
          FirstFailureAt(scene, meshes, j, m, false);
          return;
        }
        j := j + 1;
      }
    }

    /** After the mesh loop: the flush of a part-filled batch, with shadowLoops the number of
        entries it holds. */
    method FlushRemainder(flushes: seq<ShadowFlush>, batch: nat, j: int, ghost mats: seq<Matrix>) returns (flushes': seq<ShadowFlush>)
      requires j == |mats| && BatchState(flushes, batch, lightViewProj[..], mapOffsets[..], mats, j)
      ensures FlushesCover(flushes', mats)
    {
      BatchEnd(flushes, batch, lightViewProj[..], mapOffsets[..], mats);
      flushes' := flushes;
      if batch > 0 {
        flushes' := flushes + [ShadowFlush(batch, mapOffsets[..], lightViewProj[..], QuadDepth(j))];
      }
    }

    /** One pass of ProjectShadows' loop over mesh j: its lookups and light fit, its light
        matrix and atlas offset stored at the batch entry, and the flush when that fills the
        batch. */
    method ProjectMesh(lib: Library, scene: Scene, direction: Vec3, meshes: seq<OrderedMeshData>,
                       ghost boxes: seq<BoundingBox>, ghost vps: seq<Matrix>,
                       j: int, ghost m: int, flushes: seq<ShadowFlush>, batch: nat)
      returns (r: Outcome, flushes': seq<ShadowFlush>, batch': nat)
      requires Valid() && RegistriesValid(scene) && j < m
      requires ProjectLoop(scene, meshes, vps, j, m, flushes, batch, lightViewProj[..], mapOffsets[..])
      requires Fitted(lib, direction, boxes, vps) && |boxes| == m
      requires forall k | 0 <= k < m :: boxes[k] == FittedBox(scene, meshes[k])
      modifies tempCorners, lightCamera`view, lightCamera`projection, lightViewProj, mapOffsets
      ensures forall k | 0 <= k < m :: boxes[k] == FittedBox(scene, meshes[k])
      ensures r == MeshOutcome(scene, meshes[j], false)
      ensures r == Done ==> ProjectLoop(scene, meshes, vps, j + 1, m, flushes', batch', lightViewProj[..], mapOffsets[..])
    {
      flushes', batch' := flushes, batch;
      r := FitMesh(lib, scene, meshes[j], direction);
      if r != Done {
        return;
      }
      FirstFailureExtend(scene, meshes, j, false);
      flushes', batch' := BatchMesh(flushes, batch, Mul(lightCamera.view, lightCamera.projection), j, vps);
    }

    /** The batching of mesh j, whose light matrix is mat: its matrix and tile offset go to
        the batch entry, and the arrays are flushed when that fills the batch. */
    method BatchMesh(flushes: seq<ShadowFlush>, batch: nat, mat: Matrix, j: int, ghost vps: seq<Matrix>)
      returns (flushes': seq<ShadowFlush>, batch': nat)
      requires Valid() && 0 <= j < |vps| && mat == vps[j]
      requires BatchState(flushes, batch, lightViewProj[..], mapOffsets[..], vps, j)
      modifies lightViewProj, mapOffsets
      ensures BatchState(flushes', batch', lightViewProj[..], mapOffsets[..], vps, j + 1)
    {
      BatchStep(flushes, batch, lightViewProj[..], mapOffsets[..], vps, j);
      StoreBatchEntry(batch, mat, j);
      flushes', batch' := flushes, batch + 1;
      if batch' == ShadowBatchSize {
        flushes' := flushes + [ShadowFlush(ShadowBatchSize, mapOffsets[..], lightViewProj[..], QuadDepth(j + 1))];
        batch' := 0;
      }
    }

    /** The batch entry of one mesh: its light matrix, and the offset of atlas tile j written
        field by field. */
    method StoreBatchEntry(batch: nat, mat: Matrix, j: int)
      requires Valid() && batch < ShadowBatchSize && 0 <= j
      modifies lightViewProj, mapOffsets
      ensures lightViewProj[..] == old(lightViewProj[..])[batch := mat]
      ensures mapOffsets[..] == old(mapOffsets[..])[batch := TileOffset(j)]
    {
      lightViewProj[batch] := mat;
      mapOffsets[batch] := Vec2(0.0, 0.0);
      mapOffsets[batch] := mapOffsets[batch].(x := (j % 8) as real / 8.0);
      mapOffsets[batch] := mapOffsets[batch].(y := (j / 8) as real / 8.0);
    }

    /** One mesh of DrawShadowMap: the lookups and light fit, then the static-registry lookup
        the depth effect's draw goes through. */
    method StaticMesh(lib: Library, scene: Scene, om: OrderedMeshData, direction: Vec3) returns (r: Outcome, mat: Matrix)
      requires Valid() && RegistriesValid(scene)
      modifies tempCorners, lightCamera`view, lightCamera`projection
      ensures r == MeshOutcome(scene, om, true)
      ensures r == Done ==> mat == ViewProjOf(lib, direction, old(FittedBox(scene, om)))
    {
      r := FitMesh(lib, scene, om, direction);
      mat := Mul(lightCamera.view, lightCamera.projection);
      if r == Done && om.modelName.value !in scene.staticModels.keys {
        r := Failed(KeyNotFound);
      }
    }

    /** The lookups and the light fit for one ordered mesh: its box's corners are fetched and
        the light camera is fitted to them. */
    method FitMesh(lib: Library, scene: Scene, om: OrderedMeshData, direction: Vec3) returns (r: Outcome)
      requires Valid() && RegistriesValid(scene)
      modifies tempCorners, lightCamera`view, lightCamera`projection
      ensures r == MeshOutcome(scene, om, false)
      ensures r == Done ==> Mul(lightCamera.view, lightCamera.projection) == ViewProjOf(lib, direction, old(FittedBox(scene, om)))
    {
      if om.modelName.None? {
        return Failed(NullKey);
      }
      var found := scene.Model(om.modelName.value);
      if found.Err? {
        return Failed(found.error);
      }
      var model := found.value;
      if om.meshID < 0 || om.meshID >= model.tempBoxes.Length {
        return Failed(IndexOutOfRange);
      }
      GetCorners(model.tempBoxes[om.meshID], tempCorners);
      assert tempCorners[..] == tempCorners[..8];
      CreateLightViewProjMatrix(lib, direction, lightCamera, tempCorners);
      r := Done;
    }
  }
}
