// The scene renderer's visibility work: culling point lights and model meshes against the
// camera frustum, marking every mesh visible while filling the ordered-mesh list with draw
// priorities, and the comparator that sorts that list.

module SceneRendering {
  import opened Geometry
  import opened Outcomes
  import opened Lights
  import opened Models
  import opened Scenes

  // ---------------------------------------------------------------- priority order

  /** MeshPrioritySort.Compare: the second record's priority compared with the first's. */
  function Compare(a: OrderedMeshData, b: OrderedMeshData): (c: int)
    ensures c == -1 || c == 0 || c == 1
    ensures c < 0 <==> a.priority > b.priority
    ensures c == 0 <==> a.priority == b.priority
    ensures c > 0 <==> a.priority < b.priority
  {
    CompareReals(b.priority, a.priority)
  }

  /** Swapping the arguments negates the comparison. */
  lemma CompareAntisymmetric(a: OrderedMeshData, b: OrderedMeshData)
    ensures Compare(a, b) == -Compare(b, a)
  {
  }

  /** A list in the order sorting with Compare produces: no record before one of higher priority. */
  predicate ByPriority(s: seq<OrderedMeshData>) {
    forall i, j | 0 <= i < j < |s| :: s[i].priority >= s[j].priority
  }

  /** List.Sort(meshPrioritySort): the same records, highest priority first. The library's
      algorithm is unspecified and unstable; an insertion sort driven by Compare stands in for it. */
  method SortByPriority(s: seq<OrderedMeshData>) returns (r: seq<OrderedMeshData>)
    ensures multiset(r) == multiset(s)
    ensures ByPriority(r)
  {
    r := [];
    var i := 0;
    while i < |s|
      invariant 0 <= i <= |s|
      invariant multiset(r) == multiset(s[..i])
      invariant ByPriority(r)
    {
      r := InsertByPriority(r, s[i]);
      assert s[..i + 1] == s[..i] + [s[i]];
      i := i + 1;
    }
    assert s[..i] == s;
  }

  /** Places one record into a list already in priority order, after every record that
      Compare does not put behind it. */
  method InsertByPriority(sorted: seq<OrderedMeshData>, x: OrderedMeshData) returns (r: seq<OrderedMeshData>)
    requires ByPriority(sorted)
    ensures multiset(r) == multiset(sorted) + multiset{x}
    ensures ByPriority(r)
  {
    var j := 0;
    while j < |sorted| && Compare(sorted[j], x) <= 0
      invariant 0 <= j <= |sorted|
      invariant forall k | 0 <= k < j :: sorted[k].priority >= x.priority
    {
      j := j + 1;
    }
    r := sorted[..j] + [x] + sorted[j..];
    assert sorted == sorted[..j] + sorted[j..];
    InsertKeepsOrder(sorted, x, j);
  }

  /** Placing a record between the records of at least its priority and those of less keeps
      the list in priority order. */
  lemma InsertKeepsOrder(sorted: seq<OrderedMeshData>, x: OrderedMeshData, j: nat)
    requires ByPriority(sorted) && j <= |sorted|
    requires forall k | 0 <= k < j :: sorted[k].priority >= x.priority
    requires j < |sorted| ==> sorted[j].priority < x.priority
    ensures ByPriority(sorted[..j] + [x] + sorted[j..])
  {
    var r := sorted[..j] + [x] + sorted[j..];
    forall a, b | 0 <= a < b < |r|
      ensures r[a].priority >= r[b].priority
    {
      var pa := if a < j then sorted[a].priority else if a == j then x.priority else sorted[a - 1].priority;
      var pb := if b < j then sorted[b].priority else if b == j then x.priority else sorted[b - 1].priority;
      assert r[a].priority == pa && r[b].priority == pb;
    }
  }

  // ---------------------------------------------------------------- point lights

  /** The sphere a point light is culled with: its centre read from row 4 of its instance
      transform and its radius as the length of row 1. */
  function LightBounds(lib: Library, light: PointLight): Sphere {
    Sphere(Translation(light.instance.transform), lib.length(Right(light.instance.transform)))
  }

  predicate LightInView(lib: Library, frustum: Frustum, light: PointLight) {
    frustum.containsSphere(LightBounds(lib, light)) != Disjoint
  }

  /** The lights culling keeps, in their original order. */
  function VisibleLights(lib: Library, frustum: Frustum, lights: seq<PointLight>): (vs: seq<PointLight>)
    ensures |vs| <= |lights|
  {
    if lights == [] then []
    else
      var last := lights[|lights| - 1];
      VisibleLights(lib, frustum, lights[..|lights| - 1]) + (if LightInView(lib, frustum, last) then [last] else [])
  }

  /** A light is kept exactly when it is one of the scene's lights and its sphere is in view. */
  lemma {:induction false} VisibleLightsMembers(lib: Library, frustum: Frustum, lights: seq<PointLight>)
    ensures forall l :: l in VisibleLights(lib, frustum, lights) <==> l in lights && LightInView(lib, frustum, l)
  {
    if lights != [] {
      var init := lights[..|lights| - 1];
      VisibleLightsMembers(lib, frustum, init);
      assert lights == init + [lights[|lights| - 1]];
    }
  }

  /** Culling a list split in two culls each part and keeps them in order. */
  lemma {:induction false} VisibleLightsAppend(lib: Library, frustum: Frustum, a: seq<PointLight>, b: seq<PointLight>)
    ensures VisibleLights(lib, frustum, a + b) == VisibleLights(lib, frustum, a) + VisibleLights(lib, frustum, b)
  {
    if b != [] {
      var init := b[..|b| - 1];
      assert (a + b)[..|a + b| - 1] == a + init;
      VisibleLightsAppend(lib, frustum, a, init);
    } else {
      assert a + b == a;
    }
  }

  /** For a light whose transform encodes it, culling tests a sphere centred on the light's
      position whose radius is the length of (radius, 0, 0). */
  lemma LightBoundsOfEncoded(lib: Library, light: PointLight)
    requires Encoded(light)
    ensures LightBounds(lib, light).center == light.position
    ensures LightBounds(lib, light).radius == lib.length(Vec3(light.radius, 0.0, 0.0))
  {
    DecodeEncoded(light);
  }

  /** CullLights: clears the visible list, then appends each point light whose sphere is in view. */
  method CullLights(scene: Scene, frustum: Frustum, lib: Library)
    modifies scene`visibleLights
    ensures scene.visibleLights == VisibleLights(lib, frustum, scene.pointLights)
  {
    scene.visibleLights := [];
    var k := 0;
    while k < |scene.pointLights|
      invariant 0 <= k <= |scene.pointLights|
      invariant scene.visibleLights == VisibleLights(lib, frustum, scene.pointLights[..k])
    {
      var light := scene.pointLights[k];
      var lightPosition := Vec3(light.instance.transform.m41, light.instance.transform.m42, light.instance.transform.m43);
      var radiusVector := Vec3(light.instance.transform.m11, light.instance.transform.m12, light.instance.transform.m13);
      var bounds := Sphere(lightPosition, lib.length(radiusVector));
      if frustum.containsSphere(bounds) != Disjoint {
        scene.visibleLights := scene.visibleLights + [light];
      }
      assert scene.pointLights[..k + 1][..k] == scene.pointLights[..k];
      k := k + 1;
    }
    assert scene.pointLights[..k] == scene.pointLights;
  }

  // ---------------------------------------------------------------- model meshes

  /** Culling keeps a mesh when its box, carried through the model's matrix, is not outside the frustum. */
  predicate BoxInView(frustum: Frustum, box: BoundingBox, matrix: Matrix) {
    frustum.containsBox(TransformBox(box, matrix)) != Disjoint
  }

  /** The VisibleMeshes map culling leaves after looking at the first n meshes: each mesh
      whose box is in view, keyed by its index. */
  function KeptMeshes(frustum: Frustum, boxes: seq<BoundingBox>, matrix: Matrix, meshes: seq<Mesh>, n: nat): map<nat, Mesh>
    requires n <= |boxes| && n <= |meshes|
  {
    if n == 0 then map[]
    else
      var prev := KeptMeshes(frustum, boxes, matrix, meshes, n - 1);
      if BoxInView(frustum, boxes[n - 1], matrix) then prev[n - 1 := meshes[n - 1]] else prev
  }

  /** A mesh index is kept exactly when it was looked at and its box is in view, and it is
      kept with its own mesh. */
  lemma {:induction false} KeptMeshesMembers(frustum: Frustum, boxes: seq<BoundingBox>, matrix: Matrix, meshes: seq<Mesh>, n: nat)
    requires n <= |boxes| && n <= |meshes|
    ensures forall k: nat :: k in KeptMeshes(frustum, boxes, matrix, meshes, n) <==> k < n && BoxInView(frustum, boxes[k], matrix)
    ensures forall k | k in KeptMeshes(frustum, boxes, matrix, meshes, n) :: KeptMeshes(frustum, boxes, matrix, meshes, n)[k] == meshes[k]
  {
    if n > 0 {
      KeptMeshesMembers(frustum, boxes, matrix, meshes, n - 1);
    }
  }

  /** Looking at one more mesh adds one to the kept count exactly when its box is in view. */
  lemma KeptMeshesStep(frustum: Frustum, boxes: seq<BoundingBox>, matrix: Matrix, meshes: seq<Mesh>, n: nat)
    requires n < |boxes| && n < |meshes|
    ensures |KeptMeshes(frustum, boxes, matrix, meshes, n + 1)| ==
      |KeptMeshes(frustum, boxes, matrix, meshes, n)| + (if BoxInView(frustum, boxes[n], matrix) then 1 else 0)
  {
    KeptMeshesMembers(frustum, boxes, matrix, meshes, n);
  }

  /** Never more meshes are kept than were looked at. */
  lemma {:induction false} KeptMeshesBound(frustum: Frustum, boxes: seq<BoundingBox>, matrix: Matrix, meshes: seq<Mesh>, n: nat)
    requires n <= |boxes| && n <= |meshes|
    ensures |KeptMeshes(frustum, boxes, matrix, meshes, n)| <= n
  {
    if n > 0 {
      KeptMeshesBound(frustum, boxes, matrix, meshes, n - 1);
      KeptMeshesStep(frustum, boxes, matrix, meshes, n - 1);
    }
  }

  /** The visible meshes culling leaves on a model whose matrix is the one given. */
  function Culled(frustum: Frustum, m: InstancedModel, matrix: Matrix): map<nat, Mesh>
    requires m.Sized()
  {
    KeptMeshes(frustum, m.boundingBoxes, matrix, m.content.meshes, m.totalMeshes)
  }

  /** CullFromModelList's body for one model: clears its visible meshes, then for every mesh
      refreshes the transformed box and keeps the mesh when that box is in view, counting kept
      and culled meshes on the scene. */
  method CullModel(scene: Scene, m: InstancedModel, frustum: Frustum)
    requires m.Sized()
    modifies scene`visibleMeshes, scene`culledMeshes, m`visibleMeshes, m.tempBoxes
    ensures m.visibleMeshes == Culled(frustum, m, m.modelMatrix)
    ensures forall i | 0 <= i < m.totalMeshes :: m.tempBoxes[i] == TransformBox(m.boundingBoxes[i], m.modelMatrix)
    ensures scene.visibleMeshes == old(scene.visibleMeshes) + |Culled(frustum, m, m.modelMatrix)|
    ensures scene.culledMeshes == old(scene.culledMeshes) + m.totalMeshes - |Culled(frustum, m, m.modelMatrix)|
  {
    var meshIndex: nat := 0;
    m.visibleMeshes := map[];
    ghost var boxes, matrix, meshes := m.boundingBoxes, m.modelMatrix, m.content.meshes;
    while meshIndex < m.totalMeshes
      invariant 0 <= meshIndex <= m.totalMeshes
      invariant m.visibleMeshes == KeptMeshes(frustum, boxes, matrix, meshes, meshIndex)
      invariant forall i | 0 <= i < meshIndex :: m.tempBoxes[i] == TransformBox(boxes[i], matrix)
      invariant scene.visibleMeshes == old(scene.visibleMeshes) + |KeptMeshes(frustum, boxes, matrix, meshes, meshIndex)|
      invariant scene.culledMeshes ==
        old(scene.culledMeshes) + meshIndex - |KeptMeshes(frustum, boxes, matrix, meshes, meshIndex)|
    {
      KeptMeshesStep(frustum, boxes, matrix, meshes, meshIndex);
      var inView := CullMesh(scene, m, frustum, meshIndex);
      meshIndex := meshIndex + 1;
    }
  }

  /** One step of the culling loop: refreshes the mesh's transformed box and either adds the
      mesh to the model's visible meshes and counts it visible, or counts it culled. */
  method CullMesh(scene: Scene, m: InstancedModel, frustum: Frustum, meshIndex: nat) returns (inView: bool)
    requires m.Sized() && meshIndex < m.totalMeshes
    modifies scene`visibleMeshes, scene`culledMeshes, m`visibleMeshes, m.tempBoxes
    ensures inView == BoxInView(frustum, m.boundingBoxes[meshIndex], m.modelMatrix)
    ensures m.tempBoxes[..] == old(m.tempBoxes[..])[meshIndex := TransformBox(m.boundingBoxes[meshIndex], m.modelMatrix)]
    ensures m.visibleMeshes ==
      if inView then old(m.visibleMeshes)[meshIndex := m.content.meshes[meshIndex]] else old(m.visibleMeshes)
    ensures scene.visibleMeshes == old(scene.visibleMeshes) + (if inView then 1 else 0)
    ensures scene.culledMeshes == old(scene.culledMeshes) + (if inView then 0 else 1)
  {
    var box := m.boundingBoxes[meshIndex];
    m.tempBoxes[meshIndex] := box;
    m.tempBoxes[meshIndex] := m.tempBoxes[meshIndex].(min := Geometry.Transform(box.min, m.modelMatrix));
    m.tempBoxes[meshIndex] := m.tempBoxes[meshIndex].(max := Geometry.Transform(box.max, m.modelMatrix));
    inView := frustum.containsBox(m.tempBoxes[meshIndex]) != Disjoint;
    if inView {
      m.visibleMeshes := m.visibleMeshes[meshIndex := m.content.meshes[meshIndex]];
      scene.visibleMeshes := scene.visibleMeshes + 1;
    } else {
      scene.culledMeshes := scene.culledMeshes + 1;
    }
  }

  /** The matrices of a list of models, in list order. */
  function Matrices(ms: seq<InstancedModel>): (r: seq<Matrix>)
    reads (set m | m in ms)`modelMatrix
    ensures |r| == |ms|
  {
    if ms == [] then [] else Matrices(ms[..|ms| - 1]) + [ms[|ms| - 1].modelMatrix]
  }

  /** Entry k of the matrix list is model k's world matrix. */
  lemma {:induction false} MatricesAt(ms: seq<InstancedModel>)
    ensures forall k | 0 <= k < |ms| :: Matrices(ms)[k] == ms[k].modelMatrix
  {
    if ms != [] {
      MatricesAt(ms[..|ms| - 1]);
    }
  }

  /** The number of meshes culling keeps over a list of models, each model with the matrix at
      the same position of the second list. */
  function VisibleTotal(frustum: Frustum, ms: seq<InstancedModel>, matrices: seq<Matrix>): (n: nat)
    requires |matrices| == |ms| && forall m | m in ms :: m.Sized()
  {
    if ms == [] then 0
    else
      var m, last := ms[|ms| - 1], |ms| - 1;
      assert m in ms;
      assert m.Sized();
      VisibleTotal(frustum, ms[..last], matrices[..last]) + |Culled(frustum, m, matrices[last])|
  }

  /** The transformed-box buffers of a list of models. */
  function BoxBuffers(ms: seq<InstancedModel>): set<array<BoundingBox>> {
    set m | m in ms :: m.tempBoxes
  }

  /** Culling never keeps more meshes than the models have. */
  lemma {:induction false} VisibleTotalBound(frustum: Frustum, ms: seq<InstancedModel>, matrices: seq<Matrix>)
    requires |matrices| == |ms| && forall m | m in ms :: m.Sized()
    ensures VisibleTotal(frustum, ms, matrices) <= MeshCount(ms)
  {
    if ms != [] {
      var m, last := ms[|ms| - 1], |ms| - 1;
      assert m in ms;
      VisibleTotalBound(frustum, ms[..last], matrices[..last]);
      KeptMeshesBound(frustum, m.boundingBoxes, matrices[last], m.content.meshes, m.totalMeshes);
    }
  }

  /** Taking one more model of a list adds its kept and total meshes. */
  lemma VisibleTotalStep(frustum: Frustum, ms: seq<InstancedModel>, matrices: seq<Matrix>, k: nat)
    requires |matrices| == |ms| && k < |ms| && forall m | m in ms :: m.Sized()
    ensures ms[k].Sized()
    ensures VisibleTotal(frustum, ms[..k + 1], matrices[..k + 1]) ==
      VisibleTotal(frustum, ms[..k], matrices[..k]) + |Culled(frustum, ms[k], matrices[k])|
    ensures MeshCount(ms[..k + 1]) == MeshCount(ms[..k]) + ms[k].totalMeshes
  {
    assert ms[k] in ms;
    assert ms[..k + 1][..k] == ms[..k];
    assert matrices[..k + 1][..k] == matrices[..k];
  }

  /** Every transformed box of a model is its bounding box under the model's matrix. */
  ghost predicate BoxesRefreshed(m: InstancedModel)
    requires m.Sized()
    reads m`modelMatrix, m.tempBoxes
  {
    forall i | 0 <= i < m.totalMeshes :: m.tempBoxes[i] == TransformBox(m.boundingBoxes[i], m.modelMatrix)
  }

  /** A model holds the meshes culling against the frustum keeps, and its transformed boxes
      are its boxes under its matrix. */
  ghost predicate CulledModel(frustum: Frustum, m: InstancedModel)
    reads m`visibleMeshes, m`modelMatrix, m.tempBoxes
  {
    m.Sized() && m.visibleMeshes == Culled(frustum, m, m.modelMatrix) && BoxesRefreshed(m)
  }

  /** CullFromModelList: culls every model of a list in turn. Each model ends with the meshes
      its matrix keeps and its transformed boxes refreshed, the models culled before it (done)
      stay culled, and the scene's counters grow by the kept and culled totals over the
      models' matrices. */
  method CullFromModelList(scene: Scene, frustum: Frustum, models: seq<InstancedModel>,
                           ghost matrices: seq<Matrix>, ghost done: seq<InstancedModel>)
    requires forall m | m in models :: m.Sized()
    requires |matrices| == |models| && forall i | 0 <= i < |models| :: models[i].modelMatrix == matrices[i]
    requires OwnBuffers(done + models) && forall m | m in done :: CulledModel(frustum, m)
    modifies scene`visibleMeshes, scene`culledMeshes, (set m | m in models)`visibleMeshes
    modifies BoxBuffers(models)
    ensures forall m | m in done + models :: CulledModel(frustum, m)
    ensures forall m: InstancedModel | old(allocated(m)) :: m.modelMatrix == old(m.modelMatrix)
    ensures scene.visibleMeshes == old(scene.visibleMeshes) + VisibleTotal(frustum, models, matrices)
    ensures scene.culledMeshes == old(scene.culledMeshes) + MeshCount(models) - VisibleTotal(frustum, models, matrices)
  {
    ghost var all := done + models;
    ghost var kept, looked := 0, 0;
    var k := 0;
    while k < |models|
      invariant 0 <= k <= |models|
      invariant forall i | 0 <= i < |models| :: models[i].modelMatrix == matrices[i]
      invariant forall x | x in done + models[..k] :: CulledModel(frustum, x)
      invariant kept == VisibleTotal(frustum, models[..k], matrices[..k]) && looked == MeshCount(models[..k])
      invariant scene.visibleMeshes == old(scene.visibleMeshes) + kept
      invariant scene.culledMeshes == old(scene.culledMeshes) + looked - kept
    {
      var m := models[k];
      assert m == all[|done| + k];
      VisibleTotalStep(frustum, models, matrices, k);
      CullModel(scene, m, frustum);
      forall x | x in done + models[..k]
        ensures CulledModel(frustum, x)
      {
        if x != m {
          assert x.tempBoxes != m.tempBoxes by {
            if x.tempBoxes == m.tempBoxes {
              OwnBuffersShare(all, x, m);
            }
          }
        }
      }
      kept, looked := kept + |Culled(frustum, m, matrices[k])|, looked + m.totalMeshes;
      k := k + 1;
    }
    assert models[..k] == models;
    assert matrices[..k] == matrices;
  }

  /** CullModelMeshes: zeroes the counters, then culls the static, skinned and blended models.
      Every registered model ends culled against the frustum with its boxes refreshed, and the
      counters split the scene's meshes into the kept and the culled. */
  method CullModelMeshes(scene: Scene, frustum: Frustum)
    requires scene.Valid()
    modifies scene`visibleMeshes, scene`culledMeshes
    modifies (set m | m in scene.staticModels.values)`visibleMeshes, BoxBuffers(scene.staticModels.values)
    modifies (set m | m in scene.skinnedModels.values)`visibleMeshes, BoxBuffers(scene.skinnedModels.values)
    modifies (set m | m in scene.blendModels.values)`visibleMeshes, BoxBuffers(scene.blendModels.values)
    ensures forall m | m in old(scene.Models()) :: CulledModel(frustum, m)
    ensures scene.visibleMeshes == old(AllVisible(frustum, scene))
    ensures scene.visibleMeshes + scene.culledMeshes == old(TotalMeshes(scene))
    ensures 0 <= scene.culledMeshes
  {
    var statics, skinned, blended := scene.staticModels.values, scene.skinnedModels.values, scene.blendModels.values;
    ghost var staticMatrices, skinnedMatrices, blendMatrices := Matrices(statics), Matrices(skinned), Matrices(blended);
    MatricesAt(statics);
    MatricesAt(skinned);
    MatricesAt(blended);
    scene.visibleMeshes := 0;
    scene.culledMeshes := 0;
    OwnBuffersPart(statics + skinned + blended, statics + skinned);
    OwnBuffersPart(statics + skinned + blended, statics);
    assert [] + statics == statics;
    CullFromModelList(scene, frustum, statics, staticMatrices, []);
    CullFromModelList(scene, frustum, skinned, skinnedMatrices, statics);
    CullFromModelList(scene, frustum, blended, blendMatrices, statics + skinned);
    VisibleTotalBound(frustum, statics, staticMatrices);
    VisibleTotalBound(frustum, skinned, skinnedMatrices);
    VisibleTotalBound(frustum, blended, blendMatrices);
  }

  /** The meshes culling keeps over the static, skinned and blended models together. */
  function AllVisible(frustum: Frustum, scene: Scene): nat
    requires scene.staticModels.Valid() && scene.skinnedModels.Valid() && scene.blendModels.Valid()
    reads scene`staticModels, scene`skinnedModels, scene`blendModels, (set m | m in scene.staticModels.values)`modelMatrix
    reads (set m | m in scene.skinnedModels.values)`modelMatrix, (set m | m in scene.blendModels.values)`modelMatrix
  {
    VisibleTotal(frustum, scene.staticModels.values, Matrices(scene.staticModels.values)) +
    VisibleTotal(frustum, scene.skinnedModels.values, Matrices(scene.skinnedModels.values)) +
    VisibleTotal(frustum, scene.blendModels.values, Matrices(scene.blendModels.values))
  }

  /** The meshes of every model culling looks at. */
  function TotalMeshes(scene: Scene): nat
    reads scene`staticModels, scene`skinnedModels, scene`blendModels
  {
    MeshCount(scene.staticModels.values) + MeshCount(scene.skinnedModels.values) + MeshCount(scene.blendModels.values)
  }

  /** Between two states: the three registries are the same and no registered model's world
      matrix has moved, which is all culling's count depends on. */
  twostate predicate PosesKept(scene: Scene)
    reads scene`staticModels, scene`skinnedModels, scene`blendModels
    reads (set m | m in scene.staticModels.values + scene.skinnedModels.values + scene.blendModels.values)`modelMatrix
  {
    old(scene.staticModels) == scene.staticModels && old(scene.skinnedModels) == scene.skinnedModels &&
    old(scene.blendModels) == scene.blendModels &&
    forall m | m in scene.staticModels.values + scene.skinnedModels.values + scene.blendModels.values ::
      m.modelMatrix == old(m.modelMatrix)
  }

  /** What culling reads from a scene: the three registries and, in the order static, skinned,
      blended, each registered model's world matrix. */
  datatype CullInput = CullInput(statics: Registry, skinned: Registry, blended: Registry, matrices: seq<Matrix>) {
    function Models(): seq<InstancedModel> {
      statics.values + skinned.values + blended.values
    }

    ghost predicate Valid() {
      statics.Valid() && skinned.Valid() && blended.Valid() && |matrices| == |Models()|
    }
  }

  /** The scene holds exactly what `c` records: the same registries, each model at its matrix. */
  ghost predicate InputOf(scene: Scene, c: CullInput)
    reads scene`staticModels, scene`skinnedModels, scene`blendModels
    reads (set m | m in scene.staticModels.values + scene.skinnedModels.values + scene.blendModels.values)`modelMatrix
  {
    scene.staticModels == c.statics && scene.skinnedModels == c.skinned && scene.blendModels == c.blended &&
    c.Valid() && forall k | 0 <= k < |c.matrices| :: c.Models()[k].modelMatrix == c.matrices[k]
  }

  /** AllVisible over a recorded input: the meshes culling keeps with every model at its
      recorded matrix. */
  function InputVisible(frustum: Frustum, c: CullInput): nat
    requires c.Valid()
  {
    assert forall m | m in c.Models() :: m.Sized();
    VisibleTotal(frustum, c.Models(), c.matrices)
  }

  /** TotalMeshes over a recorded input. */
  function InputMeshes(c: CullInput): nat {
    MeshCount(c.Models())
  }

  /** Culling a scene that holds `c` keeps InputVisible of its meshes out of InputMeshes. */
  lemma AllVisibleInput(frustum: Frustum, scene: Scene, c: CullInput)
    requires InputOf(scene, c)
    ensures AllVisible(frustum, scene) == InputVisible(frustum, c)
    ensures TotalMeshes(scene) == InputMeshes(c)
  {
    InputMatrices(c);
    var st: seq<InstancedModel>, sk: seq<InstancedModel>, bl: seq<InstancedModel> := c.statics.values, c.skinned.values, c.blended.values;
    var a, b := |st|, |st| + |sk|;
    assert c.matrices == c.matrices[0..a] + c.matrices[a..b] + c.matrices[b..|c.matrices|];
    assert forall m | m in st + sk :: m.Sized();
    VisibleTotalConcat(frustum, st, sk, c.matrices[0..a], c.matrices[a..b]);
    VisibleTotalConcat(frustum, st + sk, bl, c.matrices[0..a] + c.matrices[a..b], c.matrices[b..|c.matrices|]);
    MeshCountConcat(st, sk);
    MeshCountConcat(st + sk, bl);
  }

  /** Each registry's models, read in place, carry their run of the recorded matrices. */
  lemma InputMatrices(c: CullInput)
    requires c.Valid()
    requires forall k | 0 <= k < |c.matrices| :: c.Models()[k].modelMatrix == c.matrices[k]
    ensures var a := |c.statics.values|; var b := a + |c.skinned.values|;
      Matrices(c.statics.values) == c.matrices[0..a] && Matrices(c.skinned.values) == c.matrices[a..b] &&
      Matrices(c.blended.values) == c.matrices[b..|c.matrices|]
  {
    var ms := c.Models();
    var a, b := |c.statics.values|, |c.statics.values| + |c.skinned.values|;
    assert ms[0..a] == c.statics.values;
    MatricesPosed(ms, c.matrices, 0, a, c.statics.values);
    assert ms[a..b] == c.skinned.values;
    MatricesPosed(ms, c.matrices, a, b, c.skinned.values);
    assert ms[b..|ms|] == c.blended.values;
    MatricesPosed(ms, c.matrices, b, |ms|, c.blended.values);
  }

  /** Culling two lists of models one after the other keeps the sum of what each keeps. */
  lemma {:induction false} VisibleTotalConcat(frustum: Frustum, xs: seq<InstancedModel>, ys: seq<InstancedModel>,
                                              mx: seq<Matrix>, my: seq<Matrix>)
    requires |mx| == |xs| && |my| == |ys|
    requires forall m | m in xs + ys :: m.Sized()
    ensures VisibleTotal(frustum, xs + ys, mx + my) == VisibleTotal(frustum, xs, mx) + VisibleTotal(frustum, ys, my)
  {
    if ys == [] {
      assert xs + ys == xs && mx + my == mx;
    } else {
      var last := |ys| - 1;
      assert (xs + ys)[..|xs| + last] == xs + ys[..last];
      assert (mx + my)[..|xs| + last] == mx + my[..last];
      VisibleTotalConcat(frustum, xs, ys[..last], mx, my[..last]);
    }
  }

  /** The meshes of two lists of models together are the meshes of each, summed. */
  lemma {:induction false} MeshCountConcat(xs: seq<InstancedModel>, ys: seq<InstancedModel>)
    ensures MeshCount(xs + ys) == MeshCount(xs) + MeshCount(ys)
  {
    if ys != [] {
      var last := |ys| - 1;
      assert (xs + ys)[..|xs| + last] == xs + ys[..last];
      MeshCountConcat(xs, ys[..last]);
    } else {
      assert xs + ys == xs;
    }
  }

  /** The matrices of a run of posed models are the matching run of poses. */
  lemma MatricesPosed(ms: seq<InstancedModel>, poses: seq<Matrix>, lo: nat, hi: nat, run: seq<InstancedModel>)
    requires |poses| == |ms| && lo <= hi <= |ms| && ms[lo..hi] == run
    requires forall k | 0 <= k < |ms| :: ms[k].modelMatrix == poses[k]
    ensures Matrices(run) == poses[lo..hi]
  {
    MatricesAt(run);
  }

  /** CullAllModels: zeroes the counters and leaves every model with no visible mesh. */
  method CullAllModels(scene: Scene)
    modifies scene`visibleMeshes, scene`culledMeshes
    modifies (set m | m in scene.staticModels.values)`visibleMeshes
    modifies (set m | m in scene.skinnedModels.values)`visibleMeshes
    modifies (set m | m in scene.blendModels.values)`visibleMeshes
    ensures scene.visibleMeshes == 0 && scene.culledMeshes == 0
    ensures forall m | m in scene.staticModels.values :: m.visibleMeshes == map[]
    ensures forall m | m in scene.skinnedModels.values :: m.visibleMeshes == map[]
    ensures forall m | m in scene.blendModels.values :: m.visibleMeshes == map[]
  {
    scene.visibleMeshes := 0;
    scene.culledMeshes := 0;
    ClearAll(scene.staticModels.values);
    ClearAll(scene.skinnedModels.values);
    ClearAll(scene.blendModels.values);
  }

  /** Clears the visible meshes of every model of a list. */
  method ClearAll(models: seq<InstancedModel>)
    modifies (set m | m in models)`visibleMeshes
    ensures forall m | m in models :: m.visibleMeshes == map[]
  {
    for k := 0 to |models|
      invariant forall m | m in models[..k] :: m.visibleMeshes == map[]
    {
      assert models[..k + 1] == models[..k] + [models[k]];
      models[k].visibleMeshes := map[];
    }
    assert models[..|models|] == models;
  }

  // ---------------------------------------------------------------- ignoring culling

  /** A model's scale and position, the two things a mesh's draw priority reads from it. */
  datatype Pose = Pose(scaling: Vec3, position: Vec3)

  /** The poses of a list of models, in list order. */
  function Poses(ms: seq<InstancedModel>): (r: seq<Pose>)
    reads (set m | m in ms)`scaling, (set m | m in ms)`position
    ensures |r| == |ms| && forall k | 0 <= k < |ms| :: r[k] == Pose(ms[k].scaling, ms[k].position)
  {
    if ms == [] then [] else Poses(ms[..|ms| - 1]) + [Pose(ms[|ms| - 1].scaling, ms[|ms| - 1].position)]
  }

  /** The smallest camera distance a priority divides by. */
  const NearestDistance: real := 0.01

  /** A mesh's draw priority: its bounding sphere's radius scaled by the model's X scale, over the
      distance from the camera to the sphere's centre moved by the model's position, that
      distance clamped to at least NearestDistance. */
  function Priority(lib: Library, camPos: Vec3, mesh: Mesh, pose: Pose): real {
    var radius := mesh.boundingSphere.radius * pose.scaling.x;
    var distance := Distance(lib, camPos, Add(mesh.boundingSphere.center, pose.position));
    radius / (if distance < NearestDistance then NearestDistance else distance)
  }

  /** The ordered-mesh record written for mesh j of the model registered under key. */
  function Record(lib: Library, camPos: Vec3, key: string, meshes: seq<Mesh>, pose: Pose, j: nat): OrderedMeshData
    requires j < |meshes|
  {
    OrderedMeshData(Some(key), j, Priority(lib, camPos, meshes[j], pose))
  }

  /** The records for the first n meshes of one model, in mesh order. */
  function MeshRecords(lib: Library, camPos: Vec3, key: string, meshes: seq<Mesh>, pose: Pose, n: nat): (r: seq<OrderedMeshData>)
    requires n <= |meshes|
    ensures |r| == n
  {
    if n == 0 then [] else MeshRecords(lib, camPos, key, meshes, pose, n - 1) + [Record(lib, camPos, key, meshes, pose, n - 1)]
  }

  /** Record j of a model names the model, carries j as its mesh ID and the mesh's priority. */
  lemma {:induction false} MeshRecordsAt(lib: Library, camPos: Vec3, key: string, meshes: seq<Mesh>, pose: Pose, n: nat)
    requires n <= |meshes|
    ensures forall j | 0 <= j < n :: MeshRecords(lib, camPos, key, meshes, pose, n)[j] == Record(lib, camPos, key, meshes, pose, j)
  {
    if n > 0 {
      MeshRecordsAt(lib, camPos, key, meshes, pose, n - 1);
    }
  }

  /** The records for the first k models of a registry's key and model lists, model by model. */
  function ListRecords(lib: Library, camPos: Vec3, keys: seq<string>, models: seq<InstancedModel>, poses: seq<Pose>, k: nat): (r: seq<OrderedMeshData>)
    requires k <= |keys| == |models| == |poses| && forall m | m in models :: m.Sized()
  {
    if k == 0 then []
    else
      var m := models[k - 1];
      ListRecords(lib, camPos, keys, models, poses, k - 1) +
      MeshRecords(lib, camPos, keys[k - 1], m.content.meshes, poses[k - 1], |m.content.meshes|)
  }

  /** A list has one record per mesh of its models. */
  lemma {:induction false} ListRecordsLength(lib: Library, camPos: Vec3, keys: seq<string>, models: seq<InstancedModel>, poses: seq<Pose>, k: nat)
    requires k <= |keys| == |models| == |poses| && forall m | m in models :: m.Sized()
    ensures |ListRecords(lib, camPos, keys, models, poses, k)| == MeshCount(models[..k])
  {
    if k > 0 {
      ListRecordsLength(lib, camPos, keys, models, poses, k - 1);
      assert models[..k][..k - 1] == models[..k - 1];
      assert models[k - 1] in models;
    }
  }

  /** The records of fewer models are a prefix of the records of more. */
  lemma {:induction false} ListRecordsPrefix(lib: Library, camPos: Vec3, keys: seq<string>, models: seq<InstancedModel>, poses: seq<Pose>, k: nat, j: nat)
    requires k <= j <= |keys| == |models| == |poses| && forall m | m in models :: m.Sized()
    ensures ListRecords(lib, camPos, keys, models, poses, k) <= ListRecords(lib, camPos, keys, models, poses, j)
  {
    if k < j {
      ListRecordsPrefix(lib, camPos, keys, models, poses, k, j - 1);
    }
  }

  /** The visible-mesh map with every one of the first n meshes, keyed by index. */
  function AllMeshes(meshes: seq<Mesh>, n: nat): map<nat, Mesh>
    requires n <= |meshes|
  {
    if n == 0 then map[] else AllMeshes(meshes, n - 1)[n - 1 := meshes[n - 1]]
  }

  /** AllMeshes holds exactly the indices below n, each with its own mesh. */
  lemma {:induction false} AllMeshesMembers(meshes: seq<Mesh>, n: nat)
    requires n <= |meshes|
    ensures forall k: nat :: k in AllMeshes(meshes, n) <==> k < n
    ensures forall k | k in AllMeshes(meshes, n) :: AllMeshes(meshes, n)[k] == meshes[k]
  {
    if n > 0 {
      AllMeshesMembers(meshes, n - 1);
    }
  }

  /** A list of slots with the records laid over it from position at onwards. */
  function Overwrite(slots: seq<OrderedMeshData>, at: nat, recs: seq<OrderedMeshData>): (r: seq<OrderedMeshData>)
    requires at + |recs| <= |slots|
  {
    slots[..at] + recs + slots[at + |recs|..]
  }

  /** Overwriting leaves the length alone, puts the records in place and keeps every other slot. */
  lemma OverwriteAt(slots: seq<OrderedMeshData>, at: nat, recs: seq<OrderedMeshData>)
    requires at + |recs| <= |slots|
    ensures |Overwrite(slots, at, recs)| == |slots|
    ensures forall j | 0 <= j < |slots| ::
      Overwrite(slots, at, recs)[j] == if at <= j < at + |recs| then recs[j - at] else slots[j]
  {
  }

  /** One model's pass of MakeModelsVisible: clears its visible meshes, then for each mesh writes
      its record into the next slot and marks it visible, counting it on the scene. When the
      slots run out the write fails, as List's indexer throws, and the pass stops there. */
  method FillModel(scene: Scene, lib: Library, camPos: Vec3, key: string, m: InstancedModel, i: nat)
    returns (next: nat, ok: bool)
    requires i <= |scene.orderedMeshes|
    modifies scene`orderedMeshes, scene`visibleMeshes, m`visibleMeshes
    ensures var w := next - i;
      i <= next <= |old(scene.orderedMeshes)| && w <= |m.content.meshes| &&
      scene.orderedMeshes == Overwrite(old(scene.orderedMeshes), i,
        MeshRecords(lib, camPos, key, m.content.meshes, Pose(m.scaling, m.position), w)) &&
      scene.visibleMeshes == old(scene.visibleMeshes) + w &&
      m.visibleMeshes == AllMeshes(m.content.meshes, w)
    ensures ok <==> i + |m.content.meshes| <= |old(scene.orderedMeshes)|
    ensures ok ==> next == i + |m.content.meshes|
    ensures !ok ==> next == |old(scene.orderedMeshes)|
  {
    ghost var slots, meshes, pose := scene.orderedMeshes, m.content.meshes, Pose(m.scaling, m.position);
    m.visibleMeshes := map[];
    var meshIndex := 0;
    next := i;
    while meshIndex < |m.content.meshes|
      invariant 0 <= meshIndex <= |meshes| && next == i + meshIndex <= |slots|
      invariant scene.orderedMeshes == Overwrite(slots, i, MeshRecords(lib, camPos, key, meshes, pose, meshIndex))
      invariant scene.visibleMeshes == old(scene.visibleMeshes) + meshIndex
      invariant m.visibleMeshes == AllMeshes(meshes, meshIndex)
    {
      if next >= |scene.orderedMeshes| {
        return next, false;
      }
      var mesh := m.content.meshes[meshIndex];
      var priority := MeshPriority(lib, camPos, mesh, m.scaling, m.position);
      OverwriteStep(slots, i, lib, camPos, key, meshes, pose, meshIndex);
      scene.orderedMeshes := scene.orderedMeshes[next := OrderedMeshData(Some(key), meshIndex, priority)];
      m.visibleMeshes := m.visibleMeshes[meshIndex := mesh];
      meshIndex := meshIndex + 1;
      next := next + 1;
      scene.visibleMeshes := scene.visibleMeshes + 1;
    }
    ok := true;
  }

  /** The priority MakeModelsVisible computes for one mesh of a model at `position` scaled by
      `scaling`. */
  method MeshPriority(lib: Library, camPos: Vec3, mesh: Mesh, scaling: Vec3, position: Vec3) returns (priority: real)
    ensures priority == Priority(lib, camPos, mesh, Pose(scaling, position))
  {
    var radius := mesh.boundingSphere.radius * scaling.x;
    var distance := Distance(lib, camPos, Add(mesh.boundingSphere.center, position));
    if distance < NearestDistance {
      distance := NearestDistance;
    }
    priority := radius / distance;
  }

  /** Writing the next record into its slot extends the overwritten stretch by one. */
  lemma OverwriteStep(slots: seq<OrderedMeshData>, at: nat, lib: Library, camPos: Vec3, key: string, meshes: seq<Mesh>, pose: Pose, n: nat)
    requires n < |meshes| && at + n < |slots|
    ensures Overwrite(slots, at, MeshRecords(lib, camPos, key, meshes, pose, n))[at + n := Record(lib, camPos, key, meshes, pose, n)] ==
      Overwrite(slots, at, MeshRecords(lib, camPos, key, meshes, pose, n + 1))
  {
    var before := MeshRecords(lib, camPos, key, meshes, pose, n);
    var after := MeshRecords(lib, camPos, key, meshes, pose, n + 1);
    OverwriteAt(slots, at, before);
    OverwriteAt(slots, at, after);
    assert after == before + [Record(lib, camPos, key, meshes, pose, n)];
  }

  /** Fewer records of one model are a prefix of more. */
  lemma {:induction false} MeshRecordsPrefix(lib: Library, camPos: Vec3, key: string, meshes: seq<Mesh>, pose: Pose, w: nat, n: nat)
    requires w <= n <= |meshes|
    ensures MeshRecords(lib, camPos, key, meshes, pose, n)[..w] == MeshRecords(lib, camPos, key, meshes, pose, w)
  {
    if w < n {
      MeshRecordsPrefix(lib, camPos, key, meshes, pose, w, n - 1);
    }
  }

  /** Two overwrites laid end to end are one overwrite with both stretches. */
  lemma OverwriteTwice(slots: seq<OrderedMeshData>, a: seq<OrderedMeshData>, b: seq<OrderedMeshData>)
    requires |a| + |b| <= |slots|
    ensures Overwrite(Overwrite(slots, 0, a), |a|, b) == Overwrite(slots, 0, a + b)
  {
    var once := Overwrite(slots, 0, a);
    assert once[..|a|] == a;
    assert once[|a| + |b|..] == slots[|a| + |b|..];
  }

  /** The records of one more model follow those of the models before it. */
  lemma ListRecordsNext(lib: Library, camPos: Vec3, keys: seq<string>, values: seq<InstancedModel>, poses: seq<Pose>, k: nat)
    requires k < |keys| == |values| == |poses| && forall m | m in values :: m.Sized()
    ensures ListRecords(lib, camPos, keys, values, poses, k + 1) ==
      ListRecords(lib, camPos, keys, values, poses, k) +
      MeshRecords(lib, camPos, keys[k], values[k].content.meshes, poses[k], |values[k].content.meshes|)
  {
  }

  /** A prefix of a sequence agrees with it on its own first n elements. */
  lemma TakeOfPrefix<T>(pre: seq<T>, whole: seq<T>, n: nat)
    requires pre <= whole && n <= |pre|
    ensures whole[..n] == pre[..n]
  {
  }

  /** Records as long as the slots replace them all. */
  lemma OverwriteWhole(slots: seq<OrderedMeshData>, recs: seq<OrderedMeshData>)
    requires |recs| == |slots|
    ensures Overwrite(slots, 0, recs) == recs
  {
    assert slots[..0] == [] && slots[|recs|..] == [];
  }

  /** After a model's pass that wrote all its records, the slots hold the records of one more model. */
  lemma FillComplete(lib: Library, camPos: Vec3, keys: seq<string>, values: seq<InstancedModel>, poses: seq<Pose>, k: nat,
                     slots: seq<OrderedMeshData>)
    requires k < |keys| == |values| == |poses| && forall m | m in values :: m.Sized()
    requires |ListRecords(lib, camPos, keys, values, poses, k)| + |values[k].content.meshes| <= |slots|
    ensures var done := ListRecords(lib, camPos, keys, values, poses, k);
      Overwrite(Overwrite(slots, 0, done), |done|,
        MeshRecords(lib, camPos, keys[k], values[k].content.meshes, poses[k], |values[k].content.meshes|)) ==
      Overwrite(slots, 0, ListRecords(lib, camPos, keys, values, poses, k + 1))
  {
    var done := ListRecords(lib, camPos, keys, values, poses, k);
    var full := MeshRecords(lib, camPos, keys[k], values[k].content.meshes, poses[k], |values[k].content.meshes|);
    OverwriteTwice(slots, done, full);
    ListRecordsNext(lib, camPos, keys, values, poses, k);
  }

  /** After a model's pass that ran out of slots, the slots hold the first records of the whole
      registry, which has more records than there are slots. */
  lemma FillPartial(lib: Library, camPos: Vec3, keys: seq<string>, values: seq<InstancedModel>, poses: seq<Pose>, k: nat,
                    slots: seq<OrderedMeshData>, w: nat)
    requires k < |keys| == |values| == |poses| && forall m | m in values :: m.Sized()
    requires w < |values[k].content.meshes|
    requires |ListRecords(lib, camPos, keys, values, poses, k)| + w == |slots|
    ensures var done := ListRecords(lib, camPos, keys, values, poses, k);
      var all := ListRecords(lib, camPos, keys, values, poses, |values|);
      |slots| < |all| &&
      Overwrite(Overwrite(slots, 0, done), |done|, MeshRecords(lib, camPos, keys[k], values[k].content.meshes, poses[k], w)) ==
      all[..|slots|]
  {
    var done := ListRecords(lib, camPos, keys, values, poses, k);
    var meshes := values[k].content.meshes;
    var part := MeshRecords(lib, camPos, keys[k], meshes, poses[k], w);
    var full := MeshRecords(lib, camPos, keys[k], meshes, poses[k], |meshes|);
    var all := ListRecords(lib, camPos, keys, values, poses, |values|);
    OverwriteTwice(slots, done, part);
    OverwriteWhole(slots, done + part);
    ListRecordsNext(lib, camPos, keys, values, poses, k);
    ListRecordsPrefix(lib, camPos, keys, values, poses, k + 1, |values|);
    MeshRecordsPrefix(lib, camPos, keys[k], meshes, poses[k], w, |meshes|);
    TakeOfPrefix(done + full, all, |slots|);
    assert (done + full)[..|slots|] == done + part;
  }

  /** Every mesh of `m` is in its visible-mesh map under its own index. */
  ghost predicate ShowsEveryMesh(m: InstancedModel)
    reads m
  {
    m.visibleMeshes == AllMeshes(m.content.meshes, |m.content.meshes|)
  }

  /** Where MakeModelsVisible's loop stands after the first k models: the slots hold their
      records from the front, i of them, each counted on the scene, and each of those models
      shows every mesh. */
  ghost predicate FillState(scene: Scene, lib: Library, camPos: Vec3, reg: Registry, poses: seq<Pose>,
                            slots: seq<OrderedMeshData>, visible0: int, k: nat, i: nat)
    requires reg.Valid() && |poses| == |reg.values| && k <= |reg.values|
    reads scene, set m | m in reg.values
  {
    i == |ListRecords(lib, camPos, reg.keys, reg.values, poses, k)| <= |slots|
    && scene.orderedMeshes == Overwrite(slots, 0, ListRecords(lib, camPos, reg.keys, reg.values, poses, k))
    && scene.visibleMeshes == visible0 + i
    && forall j | 0 <= j < k :: ShowsEveryMesh(reg.values[j])
  }

  /** One step of MakeModelsVisible's loop: model k of the registry writes its records after
      those of the models before it. */
  method FillNext(scene: Scene, lib: Library, camPos: Vec3, reg: Registry, ghost poses: seq<Pose>,
                  ghost slots: seq<OrderedMeshData>, ghost visible0: int, k: nat, i: nat, m: InstancedModel)
    returns (next: nat, ok: bool)
    requires reg.Valid() && |poses| == |reg.values| && k < |reg.values| && m == reg.values[k]
    requires Pose(m.scaling, m.position) == poses[k]
    requires FillState(scene, lib, camPos, reg, poses, slots, visible0, k, i)
    modifies scene`orderedMeshes, scene`visibleMeshes, m`visibleMeshes
    ensures ok ==> FillState(scene, lib, camPos, reg, poses, slots, visible0, k + 1, next)
    ensures !ok ==>
      var all := ListRecords(lib, camPos, reg.keys, reg.values, poses, |reg.values|);
      |slots| < |all| && scene.orderedMeshes == all[..|slots|] &&
      scene.visibleMeshes == visible0 + |slots|
  {
    assert m in reg.values;
    label before:
    next, ok := FillModel(scene, lib, camPos, reg.keys[k], m, i);
    if ok {
      FillComplete(lib, camPos, reg.keys, reg.values, poses, k, slots);
      forall j | 0 <= j <= k
        ensures ShowsEveryMesh(reg.values[j])
      {
        if reg.values[j] != m {
          assert reg.values[j].visibleMeshes == old@before(reg.values[j].visibleMeshes);
        }
      }
    } else {
      FillPartial(lib, camPos, reg.keys, reg.values, poses, k, slots, next - i);
    }
  }

  /** The loop of MakeModelsVisible: each model of the registry in turn writes its records from
      the next free slot on. It stops at the first write past the end of the list. */
  method FillModels(scene: Scene, lib: Library, camPos: Vec3, reg: Registry, ghost poses: seq<Pose>) returns (ok: bool)
    requires reg.Valid() && |poses| == |reg.values|
    requires forall j | 0 <= j < |reg.values| :: poses[j] == Pose(reg.values[j].scaling, reg.values[j].position)
    modifies scene`orderedMeshes, scene`visibleMeshes, (set m | m in reg.values)`visibleMeshes
    ensures var all := ListRecords(lib, camPos, reg.keys, reg.values, poses, |reg.values|);
      var slots := old(scene.orderedMeshes);
      (ok <==> |all| <= |slots|) &&
      (ok ==> scene.orderedMeshes == all + slots[|all|..] && scene.visibleMeshes == old(scene.visibleMeshes) + |all|) &&
      (!ok ==> scene.orderedMeshes == all[..|slots|] && scene.visibleMeshes == old(scene.visibleMeshes) + |slots|)
    ensures ok ==> forall j | 0 <= j < |reg.values| :: ShowsEveryMesh(reg.values[j])
  {
    ghost var slots, visible0 := scene.orderedMeshes, scene.visibleMeshes;
    assert slots[..0] + [] + slots[0..] == slots;
    var i: nat := 0;
    var k := 0;
    while k < |reg.values|
      invariant 0 <= k <= |reg.values|
      invariant FillState(scene, lib, camPos, reg, poses, slots, visible0, k, i)
    {
      var m := reg.values[k];
      assert m in reg.values;
      i, ok := FillNext(scene, lib, camPos, reg, poses, slots, visible0, k, i, m);
      if !ok {
        return;
      }
      k := k + 1;
    }
    assert slots[..0] + ListRecords(lib, camPos, reg.keys, reg.values, poses, k) ==
      ListRecords(lib, camPos, reg.keys, reg.values, poses, k);
    ok := true;
  }

  /** The records MakeModelsVisible writes for a whole registry, one per mesh of its models. */
  function AllRecords(lib: Library, camPos: Vec3, reg: Registry, poses: seq<Pose>): (r: seq<OrderedMeshData>)
    requires reg.Valid() && |poses| == |reg.values|
    ensures |r| == MeshCount(reg.values)
  {
    ListRecordsLength(lib, camPos, reg.keys, reg.values, poses, |reg.values|);
    assert reg.values[..|reg.values|] == reg.values;
    ListRecords(lib, camPos, reg.keys, reg.values, poses, |reg.values|)
  }

  /** MakeModelsVisible over one registry: every mesh of every model, in registry order, writes
      its record into the next slot of the ordered-mesh list, is marked visible on its model and
      is counted on the scene; the list is then sorted by priority. An empty list is left alone.
      When the registry has more meshes than the list has slots, the write past the end fails
      after the list has been filled with the first records. */
  method MakeModelsVisible(scene: Scene, lib: Library, camPos: Vec3, reg: Registry, ghost poses: seq<Pose>,
                           ghost shown: seq<InstancedModel>) returns (r: Outcome)
    requires reg.Valid() && |poses| == |reg.values|
    requires forall j | 0 <= j < |reg.values| :: poses[j] == Pose(reg.values[j].scaling, reg.values[j].position)
    modifies scene`orderedMeshes, scene`visibleMeshes, (set m | m in reg.values)`visibleMeshes
    ensures var all := AllRecords(lib, camPos, reg, poses);
      var slots := old(scene.orderedMeshes);
      (r.Failed? <==> 0 < |slots| < |all|) &&
      (r.Failed? ==>
        r.error == IndexOutOfRange && scene.orderedMeshes == all[..|slots|] &&
        scene.visibleMeshes == old(scene.visibleMeshes) + |slots|) &&
      (0 < |slots| && |all| <= |slots| ==>
        ByPriority(scene.orderedMeshes) &&
        multiset(scene.orderedMeshes) == multiset(all + slots[|all|..]) &&
        scene.visibleMeshes == old(scene.visibleMeshes) + |all|)
    ensures |old(scene.orderedMeshes)| == 0 ==>
      r == Done && scene.orderedMeshes == old(scene.orderedMeshes) && scene.visibleMeshes == old(scene.visibleMeshes) &&
      forall m: InstancedModel | old(allocated(m)) :: m.visibleMeshes == old(m.visibleMeshes)
    ensures 0 < |old(scene.orderedMeshes)| && r == Done ==> forall m | m in reg.values :: ShowsEveryMesh(m)
    ensures 0 < |old(scene.orderedMeshes)| && r == Done && (forall m | m in shown :: old(ShowsEveryMesh(m))) ==>
      forall m | m in shown :: ShowsEveryMesh(m)
  {
    if |scene.orderedMeshes| == 0 {
      return Done;
    }
    var ok := FillModels(scene, lib, camPos, reg, poses);
    if !ok {
      return Failed(IndexOutOfRange);
    }
    forall m | m in shown && old(ShowsEveryMesh(m))
      ensures ShowsEveryMesh(m)
    {
      if m !in reg.values {
        assert m.visibleMeshes == old(m.visibleMeshes);
      }
    }
    scene.orderedMeshes := SortByPriority(scene.orderedMeshes);
    r := Done;
  }

  /** IgnoreCulling: both counters start again from zero, then every static and then every
      skinned mesh is made visible and given a slot in the ordered-mesh list; blended models are
      not touched. The list has one slot per static mesh, so the skinned pass starts again at slot
      0 of the sorted static records: it fails when there are more skinned than static meshes,
      and otherwise its records replace as many static ones, the list keeping its length. With no
      static meshes the list is empty and neither pass changes anything. */
  method IgnoreCulling(scene: Scene, lib: Library, camPos: Vec3) returns (r: Outcome)
    requires scene.Valid()
    modifies scene`orderedMeshes, scene`visibleMeshes, scene`culledMeshes
    modifies (set m | m in scene.staticModels.values)`visibleMeshes, (set m | m in scene.skinnedModels.values)`visibleMeshes
    ensures var statics := old(AllRecords(lib, camPos, scene.staticModels, Poses(scene.staticModels.values)));
      var skinned := old(AllRecords(lib, camPos, scene.skinnedModels, Poses(scene.skinnedModels.values)));
      scene.culledMeshes == 0 &&
      (r.Failed? <==> 0 < |statics| < |skinned|) &&
      (r.Failed? ==>
        r.error == IndexOutOfRange && scene.orderedMeshes == skinned[..|statics|] &&
        scene.visibleMeshes == |statics| + |statics|) &&
      (|statics| == 0 ==> scene.orderedMeshes == [] && scene.visibleMeshes == 0) &&
      (0 < |statics| && |skinned| <= |statics| ==>
        |scene.orderedMeshes| == |statics| && ByPriority(scene.orderedMeshes) &&
        multiset(skinned) <= multiset(scene.orderedMeshes) &&
        multiset(scene.orderedMeshes) - multiset(skinned) <= multiset(statics) &&
        scene.visibleMeshes == |statics| + |skinned|)
    ensures old(scene.orderedMeshes) == [] ==> forall m | m in old(scene.staticModels.values + scene.skinnedModels.values) ::
      m.visibleMeshes == old(m.visibleMeshes)
    ensures old(scene.orderedMeshes) != [] && r == Done ==>
      forall m | m in old(scene.staticModels.values + scene.skinnedModels.values) :: ShowsEveryMesh(m)
  {
    var staticModels, skinnedModels := scene.staticModels, scene.skinnedModels;
    ghost var staticPoses, skinnedPoses := Poses(staticModels.values), Poses(skinnedModels.values);
    ghost var statics := AllRecords(lib, camPos, staticModels, staticPoses);
    ghost var skinned := AllRecords(lib, camPos, skinnedModels, skinnedPoses);
    scene.visibleMeshes := 0;
    scene.culledMeshes := 0;
    MakeStaticsVisible(scene, lib, camPos, staticModels, staticPoses);
    ghost var sorted := scene.orderedMeshes;
    r := MakeModelsVisible(scene, lib, camPos, skinnedModels, skinnedPoses, staticModels.values);
    if 0 < |statics| && |skinned| <= |statics| {
      ReplacedFront(sorted, statics, skinned, scene.orderedMeshes);
    }
  }

  /** IgnoreCulling's first MakeModelsVisible call, on the static models, whose records fill
      the ordered-mesh list exactly: it cannot fail, and either the list is empty and nothing
      changes, or the list is a sorted arrangement of the static records and every static model
      shows all its meshes. */
  method MakeStaticsVisible(scene: Scene, lib: Library, camPos: Vec3, reg: Registry, ghost poses: seq<Pose>)
    requires reg.Valid() && |poses| == |reg.values|
    requires forall j | 0 <= j < |reg.values| :: poses[j] == Pose(reg.values[j].scaling, reg.values[j].position)
    requires |scene.orderedMeshes| == MeshCount(reg.values)
    modifies scene`orderedMeshes, scene`visibleMeshes, (set m | m in reg.values)`visibleMeshes
    ensures |AllRecords(lib, camPos, reg, poses)| == 0 ==>
      scene.orderedMeshes == [] && scene.visibleMeshes == old(scene.visibleMeshes) &&
      forall m: InstancedModel | old(allocated(m)) :: m.visibleMeshes == old(m.visibleMeshes)
    ensures var all := AllRecords(lib, camPos, reg, poses);
      0 < |all| ==>
        |scene.orderedMeshes| == |all| && multiset(scene.orderedMeshes) == multiset(all) && ByPriority(scene.orderedMeshes) &&
        scene.visibleMeshes == old(scene.visibleMeshes) + |all| && forall m | m in reg.values :: ShowsEveryMesh(m)
  {
    ghost var all := AllRecords(lib, camPos, reg, poses);
    var r := MakeModelsVisible(scene, lib, camPos, reg, poses, []);
    assert all + old(scene.orderedMeshes)[|all|..] == all;
    assert |scene.orderedMeshes| == |multiset(scene.orderedMeshes)|;
  }

  /** MakeModelVisible: looks the model up by name and walks its meshes to the one with the given
      index, adding it to the model's visible meshes. An absent name fails as the dictionary
      indexer does, and an index already visible fails as Dictionary.Add does; an index outside
      the model's meshes is never reached and changes nothing. */
  method MakeModelVisible(reg: Registry, modelName: string, meshID: int) returns (r: Outcome)
    requires reg.Valid()
    modifies (set m | m in reg.values)`visibleMeshes
    ensures modelName !in reg.keys ==>
      r == Failed(KeyNotFound) && forall m | m in reg.values :: m.visibleMeshes == old(m.visibleMeshes)
    ensures modelName in reg.keys ==>
      var m := reg.Get(modelName);
      (forall o | o in reg.values && o != m :: o.visibleMeshes == old(o.visibleMeshes)) &&
      if 0 <= meshID < |m.content.meshes| && meshID in old(m.visibleMeshes) then
        r == Failed(DuplicateKey) && m.visibleMeshes == old(m.visibleMeshes)
      else if 0 <= meshID < |m.content.meshes| then
        r == Done && m.visibleMeshes == old(m.visibleMeshes)[meshID := m.content.meshes[meshID]]
      else
        r == Done && m.visibleMeshes == old(m.visibleMeshes)
  {
    if modelName !in reg.keys {
      return Failed(KeyNotFound);
    }
    var m: InstancedModel := reg.Get(modelName);
    var meshIndex: nat := 0;
    var found := false;
    while meshIndex < |m.content.meshes|
      invariant meshIndex <= |m.content.meshes| && !found
      invariant meshID < 0 || meshIndex <= meshID
      invariant m.visibleMeshes == old(m.visibleMeshes)
      modifies m`visibleMeshes
    {
      if meshIndex == meshID {
        if meshIndex in m.visibleMeshes {
          return Failed(DuplicateKey);
        }
        m.visibleMeshes := m.visibleMeshes[meshIndex := m.content.meshes[meshIndex]];
        found := true;
      }
      if found {
        break;
      }
      meshIndex := meshIndex + 1;
    }
    r := Done;
  }

  /** A list holding the skinned records in place of the first of the sorted static records keeps
      its length, holds every skinned record, and holds nothing else but static records. */
  lemma ReplacedFront(sorted: seq<OrderedMeshData>, statics: seq<OrderedMeshData>, skinned: seq<OrderedMeshData>,
                      result: seq<OrderedMeshData>)
    requires multiset(sorted) == multiset(statics) && |skinned| <= |sorted|
    requires multiset(result) == multiset(skinned + sorted[|skinned|..])
    ensures |result| == |statics|
    ensures multiset(skinned) <= multiset(result)
    ensures multiset(result) - multiset(skinned) <= multiset(statics)
  {
    var rest := sorted[|skinned|..];
    assert sorted == sorted[..|skinned|] + rest;
    assert multiset(sorted) == multiset(sorted[..|skinned|]) + multiset(rest);
    assert multiset(result) == multiset(skinned) + multiset(rest);
    assert |multiset(result)| == |result| && |multiset(statics)| == |statics| && |multiset(sorted)| == |sorted|;
  }
}
