// The scene: three registries of models keyed by name (static, skinned and blended),
// an optional skybox, the point lights and the lights found visible this frame, and
// the ordered-mesh list that the renderer fills with draw priorities.

module Scenes {
  import opened Geometry
  import opened Outcomes
  import opened Lights
  import opened Models

  /** One slot of the ordered-mesh list: which mesh of which model, and how urgently to draw it. */
  datatype OrderedMeshData = OrderedMeshData(modelName: Option<string>, meshID: int, priority: real)

  /** A freshly created slot: no model, mesh 0, priority 0. */
  const EmptySlot := OrderedMeshData(None, 0, 0.0)

  /** A Dictionary<String, InstancedModel> that is never removed from, laid out as its entry
      array: the keys in the order they were added (the order the engine iterates in) and the
      model stored under each. */
  datatype Registry = Registry(keys: seq<string>, values: seq<InstancedModel>) {
    ghost predicate Valid() {
      |keys| == |values| &&
      (forall i, j | 0 <= i < j < |keys| :: keys[i] != keys[j]) &&
      (forall i | 0 <= i < |values| :: values[i].Sized())
    }

    /** The indexer: the model stored under a key the dictionary holds. */
    function Get(key: string): (m: InstancedModel)
      requires Valid() && key in keys
      ensures exists i | 0 <= i < |keys| :: keys[i] == key && values[i] == m
      ensures m in values && m.Sized()
    {
      values[IndexOf(keys, key)]
    }

    /** Dictionary.Add of a key not yet present: the entry goes last. */
    function Add(key: string, m: InstancedModel): (r: Registry)
      requires Valid() && key !in keys && m.Sized()
      ensures r.keys == keys + [key] && r.values == values + [m]
      ensures r.Valid() && r.Get(key) == m
      ensures forall k | k in keys :: r.Get(k) == Get(k)
    {
      var r := Registry(keys + [key], values + [m]);
      assert r.keys[|keys|] == key;
      forall k | k in keys
        ensures r.Get(k) == Get(k)
      {
        IndexOfPrefix(keys, key, k);
      }
      r
    }
  }

  const EmptyRegistry := Registry([], [])

  /** The position of a key in a key list: the first place it occurs. */
  function IndexOf(keys: seq<string>, key: string): (i: nat)
    requires key in keys
    ensures i < |keys| && keys[i] == key
    ensures forall j | 0 <= j < i :: keys[j] != key
  {
    if keys[0] == key then 0 else 1 + IndexOf(keys[1..], key)
  }

  /** Appending a key leaves the position of every earlier key where it was. */
  lemma {:induction false} IndexOfPrefix(keys: seq<string>, key: string, k: string)
    requires k in keys
    ensures IndexOf(keys + [key], k) == IndexOf(keys, k)
  {
    if keys[0] != k {
      assert (keys + [key])[1..] == keys[1..] + [key];
      IndexOfPrefix(keys[1..], key, k);
    }
  }

  /** The number of meshes of a list of models, summed. */
  function MeshCount(vs: seq<InstancedModel>): nat
  {
    if vs == [] then 0 else MeshCount(vs[..|vs| - 1]) + vs[|vs| - 1].totalMeshes
  }

  /** Appending one model adds its meshes to the count. */
  lemma MeshCountAppend(vs: seq<InstancedModel>, m: InstancedModel)
    ensures MeshCount(vs + [m]) == MeshCount(vs) + m.totalMeshes
  {
    assert (vs + [m])[..|vs|] == vs;
  }

  /** The transformed-box buffer of a model. */
  function Buffer(m: InstancedModel): array<BoundingBox> {
    m.tempBoxes
  }

  /** Different models of a list own different transformed-box buffers, as every model
      allocates its own in its constructor. */
  ghost predicate OwnBuffers(ms: seq<InstancedModel>) {
    forall x, y {:trigger Buffer(x), Buffer(y)} | x in ms && y in ms && Buffer(x) == Buffer(y) :: x == y
  }

  /** Two models of a list that owns its buffers share a buffer only when they are one model. */
  lemma OwnBuffersShare(ms: seq<InstancedModel>, x: InstancedModel, y: InstancedModel)
    requires OwnBuffers(ms) && x in ms && y in ms && x.tempBoxes == y.tempBoxes
    ensures x == y
  {
    assert Buffer(x) == Buffer(y);
  }

  /** A list made of the models of a list that owns its buffers, and of one more model whose
      buffer none of them shares, owns its buffers too. */
  lemma OwnBuffersWith(ms: seq<InstancedModel>, ns: seq<InstancedModel>, m: InstancedModel)
    requires OwnBuffers(ms)
    requires forall x | x in ms :: x.tempBoxes != m.tempBoxes
    requires forall x | x in ns :: x in ms || x == m
    ensures OwnBuffers(ns)
  {
    forall x, y | x in ns && y in ns && Buffer(x) == Buffer(y)
      ensures x == y
    {
      if x != m && y != m {
        OwnBuffersShare(ms, x, y);
      }
    }
  }

  /** Every part of a list that owns its buffers owns them too. */
  lemma OwnBuffersPart(ms: seq<InstancedModel>, ns: seq<InstancedModel>)
    requires OwnBuffers(ms)
    requires forall x | x in ns :: x in ms
    ensures OwnBuffers(ns)
  {
    forall x, y | x in ns && y in ns && Buffer(x) == Buffer(y)
      ensures x == y
    {
      OwnBuffersShare(ms, x, y);
    }
  }

  class Scene {
    var staticModels: Registry
    var skinnedModels: Registry
    var blendModels: Registry
    var skyboxModel: Option<InstancedModel>
    var directionalLights: seq<DirectionLight>
    var pointLights: seq<PointLight>
    var visibleLights: seq<PointLight>
    var ambientLight: real
    var orderedMeshes: seq<OrderedMeshData>
    var totalPolys: int
    var debug: bool
    var visibleMeshes: int
    var culledMeshes: int
    var drawCalls: int

    ghost predicate Valid()
      reads this
    {
      staticModels.Valid() && skinnedModels.Valid() && blendModels.Valid() &&
      |orderedMeshes| == MeshCount(staticModels.values) &&
      OwnBuffers(Models())
    }

    /** Every registered model: the static, then the skinned, then the blended ones. */
    ghost function Models(): seq<InstancedModel>
      reads this
    {
      staticModels.values + skinnedModels.values + blendModels.values
    }

    /** Scene.Initialize: three empty registries and an empty ordered-mesh list. */
    constructor ()
      ensures Valid()
      ensures staticModels == EmptyRegistry && skinnedModels == EmptyRegistry && blendModels == EmptyRegistry
      ensures orderedMeshes == [] && skyboxModel == None
      ensures directionalLights == [] && pointLights == [] && visibleLights == []
      ensures ambientLight == 0.0 && !debug && visibleMeshes == 0 && culledMeshes == 0 && drawCalls == 0
    {
      staticModels := EmptyRegistry;
      skinnedModels := EmptyRegistry;
      blendModels := EmptyRegistry;
      skyboxModel := None;
      directionalLights := [];
      pointLights := [];
      visibleLights := [];
      ambientLight := 0.0;
      orderedMeshes := [];
      totalPolys := 0;
      debug := false;
      visibleMeshes := 0;
      culledMeshes := 0;
      drawCalls := 0;
    }

    /** VisiblePointLights: the list culling fills. */
    function VisiblePointLights(): seq<PointLight>
      reads this
    {
      visibleLights
    }

    /** totalLights: the count of that same list. */
    function TotalLights(): (n: nat)
      reads this
      ensures n == |VisiblePointLights()|
    {
      |visibleLights|
    }

    /** AddPointLight: appends one new light and hands back the light it appended. */
    method AddPointLight(position: Vec3, color: Color, radius: real, intensity: real)
      returns (light: PointLight)
      modifies this`pointLights
      ensures pointLights == old(pointLights) + [light]
      ensures light == NewPointLight(position, color, radius, intensity)
    {
      light := NewPointLight(position, color, radius, intensity);
      pointLights := pointLights + [light];
      light := pointLights[|pointLights| - 1];
    }

    /** AddModel: registers a new static model under the key and appends one empty
        ordered-mesh slot per mesh; a key already present throws before anything changes. */
    method AddModel(modelPath: string, content: ModelContent) returns (r: Result<InstancedModel>)
      requires Valid() && WellFormed(content)
      modifies this`staticModels, this`orderedMeshes
      ensures Valid()
      ensures old(modelPath in staticModels.keys) ==> r == Err(DuplicateKey) && unchanged(this)
      ensures old(modelPath !in staticModels.keys) ==>
        r.Ok? && fresh(r.value) && r.value.Sized() && r.value.content == content &&
        staticModels == old(staticModels).Add(modelPath, r.value) &&
        SlotsAppended(old(orderedMeshes), orderedMeshes, |content.meshes|)
    {
      if modelPath in staticModels.keys {
        return Err(DuplicateKey);
      }
      ghost var before := Models();
      var m := LoadModel(content);
      MeshCountAppend(staticModels.values, m);
      staticModels := staticModels.Add(modelPath, m);
      OwnBuffersWith(before, Models(), m);
      orderedMeshes := AppendSlots(orderedMeshes, m.totalMeshes);
      r := Ok(m);
    }

    /** AddModelName: AddModel under a key other than the file name. */
    method AddModelName(modelName: string, content: ModelContent) returns (r: Result<InstancedModel>)
      requires Valid() && WellFormed(content)
      modifies this`staticModels, this`orderedMeshes
      ensures Valid()
      ensures old(modelName in staticModels.keys) ==> r == Err(DuplicateKey) && unchanged(this)
      ensures old(modelName !in staticModels.keys) ==>
        r.Ok? && fresh(r.value) && r.value.Sized() && r.value.content == content &&
        staticModels == old(staticModels).Add(modelName, r.value) &&
        SlotsAppended(old(orderedMeshes), orderedMeshes, |content.meshes|)
    {
      r := AddModel(modelName, content);
    }

    /** AddSkinnedModel: registers the model, then throws if its content has no skinning data,
        then attaches a player and throws if there is no "Take 001" clip to start. The model
        stays registered on both failures. No ordered-mesh slot is added. */
    method AddSkinnedModel(modelPath: string, content: ModelContent) returns (r: Result<InstancedModel>)
      requires Valid() && WellFormed(content)
      modifies this`skinnedModels
      ensures Valid()
      ensures old(modelPath in skinnedModels.keys) ==> r == Err(DuplicateKey) && unchanged(this)
      ensures old(modelPath !in skinnedModels.keys) ==>
        |skinnedModels.values| == |old(skinnedModels.values)| + 1 &&
        var m := skinnedModels.values[|old(skinnedModels.values)|];
        fresh(m) && m.content == content && skinnedModels == old(skinnedModels).Add(modelPath, m) &&
        match content.skinning
        case None => r == Err(InvalidOperation) && m.animationPlayer == None
        case Some(data) =>
          if "Take 001" in data.clips
          then r == Ok(m) && m.animationPlayer == Some(AnimationPlayer(data, Some("Take 001")))
          else r == Err(KeyNotFound) && m.animationPlayer == Some(AnimationPlayer(data, None))
    {
      if modelPath in skinnedModels.keys {
        return Err(DuplicateKey);
      }
      ghost var before := Models();
      var m := LoadModel(content);
      skinnedModels := skinnedModels.Add(modelPath, m);
      OwnBuffersWith(before, Models(), m);
      match content.skinning {
        case None =>
          r := Err(InvalidOperation);
        case Some(data) =>
          m.animationPlayer := Some(AnimationPlayer(data, None));
          if "Take 001" !in data.clips {
            r := Err(KeyNotFound);
          } else {
            m.animationPlayer := Some(AnimationPlayer(data, Some("Take 001")));
            r := Ok(m);
          }
      }
    }

    /** AddBlendModel: registers the model in the blended registry; no ordered-mesh slot. */
    method AddBlendModel(modelPath: string, content: ModelContent) returns (r: Result<InstancedModel>)
      requires Valid() && WellFormed(content)
      modifies this`blendModels
      ensures Valid()
      ensures old(modelPath in blendModels.keys) ==> r == Err(DuplicateKey) && unchanged(this)
      ensures old(modelPath !in blendModels.keys) ==>
        r.Ok? && fresh(r.value) && r.value.Sized() && r.value.content == content &&
        blendModels == old(blendModels).Add(modelPath, r.value)
    {
      if modelPath in blendModels.keys {
        return Err(DuplicateKey);
      }
      ghost var before := Models();
      var m := LoadModel(content);
      blendModels := blendModels.Add(modelPath, m);
      OwnBuffersWith(before, Models(), m);
      r := Ok(m);
    }

    /** AddSkybox: replaces the skybox; the registries and slots are untouched. */
    method AddSkybox(modelPath: string, content: ModelContent) returns (m: InstancedModel)
      requires Valid() && WellFormed(content)
      modifies this`skyboxModel
      ensures Valid()
      ensures fresh(m) && m.content == content && skyboxModel == Some(m)
    {
      m := LoadModel(content);
      skyboxModel := Some(m);
    }

    /** Model(key): the static model under the key if there is one, else the skinned one;
        a key in neither registry throws. */
    function Model(modelKey: string): (r: Result<InstancedModel>)
      requires staticModels.Valid() && skinnedModels.Valid()
      reads this
      ensures r.Ok? <==> modelKey in staticModels.keys || modelKey in skinnedModels.keys
      ensures modelKey in staticModels.keys ==> r == Ok(staticModels.Get(modelKey))
      ensures modelKey !in staticModels.keys && modelKey in skinnedModels.keys ==>
        r == Ok(skinnedModels.Get(modelKey))
      ensures r.Err? ==> r.error == KeyNotFound
    {
      if modelKey in staticModels.keys then Ok(staticModels.Get(modelKey))
      else if modelKey in skinnedModels.keys then Ok(skinnedModels.Get(modelKey))
      else Err(KeyNotFound)
    }
  }

  /** after is before followed by n empty slots. */
  predicate SlotsAppended(before: seq<OrderedMeshData>, after: seq<OrderedMeshData>, n: nat) {
    |after| == |before| + n && after[..|before|] == before &&
    forall k | |before| <= k < |after| :: after[k] == EmptySlot
  }

  /** AddModel's loop: one new empty slot per mesh, appended after the existing ones. */
  method AppendSlots(slots: seq<OrderedMeshData>, totalMeshes: nat) returns (r: seq<OrderedMeshData>)
    ensures SlotsAppended(slots, r, totalMeshes)
  {
    r := slots;
    var i := 0;
    while i < totalMeshes
      invariant 0 <= i <= totalMeshes
      invariant |r| == |slots| + i && r[..|slots|] == slots
      invariant forall k | |slots| <= k < |r| :: r[k] == EmptySlot
    {
      r := r + [EmptySlot];
      i := i + 1;
    }
  }

  /** The InstancedModel constructor as the scene uses it: a fresh model built from the content. */
  method LoadModel(content: ModelContent) returns (m: InstancedModel)
    requires WellFormed(content)
    ensures fresh(m) && fresh(m.tempBoxes) && m.Valid()
    ensures m.content == content && m.animationPlayer == None && m.visibleMeshes == map[]
  {
    m := new InstancedModel(content);
  }
}
