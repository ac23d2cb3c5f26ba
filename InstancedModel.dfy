// A loaded model with its per-mesh buffers: bounding boxes built from the vertex
// data, boxes and centres re-transformed by the model's world matrix, the meshes
// marked visible for the current frame, and the list of placed instances.

module Models {
  import opened Geometry
  import opened Outcomes
  import opened Entities

  datatype Vertex = Vertex(position: Vec3, uv: Vec2)
  datatype MeshPart = MeshPart(vertices: seq<Vertex>, texture: nat)
  datatype Mesh = Mesh(parts: seq<MeshPart>, parentBone: nat, boundingSphere: Sphere)
  /** The animation data a skinned model carries in its Tag: the names of its clips. */
  datatype SkinningData = SkinningData(clips: set<string>)

  /** An animation player over some skinning data, and the clip it has been started on, if any. */
  datatype AnimationPlayer = AnimationPlayer(skinning: SkinningData, clip: Option<string>)

  /** What the content manager loads for one model file. */
  datatype ModelContent = ModelContent(meshes: seq<Mesh>, bones: seq<Matrix>, skinning: Option<SkinningData>)

  /** Every mesh hangs from a bone the model has. */
  predicate WellFormed(c: ModelContent) {
    forall m <- c.meshes :: m.parentBone < |c.bones|
  }

  const FloatMaxVec3 := Vec3(FloatMax, FloatMax, FloatMax)
  const FloatMinVec3 := Vec3(-FloatMax, -FloatMax, -FloatMax)
  const FloatMaxVec2 := Vec2(FloatMax, FloatMax)
  const FloatMinVec2 := Vec2(-FloatMax, -FloatMax)

  /** The vertex positions of one part, and of a list of parts in order. */
  function PartPositions(part: MeshPart): (ps: seq<Vec3>)
    ensures |ps| == |part.vertices|
  {
    seq(|part.vertices|, i requires 0 <= i < |part.vertices| => part.vertices[i].position)
  }

  function Positions(parts: seq<MeshPart>): seq<Vec3> {
    if parts == [] then [] else Positions(parts[..|parts| - 1]) + PartPositions(parts[|parts| - 1])
  }

  function PartUVs(part: MeshPart): (uvs: seq<Vec2>)
    ensures |uvs| == |part.vertices|
  {
    seq(|part.vertices|, i requires 0 <= i < |part.vertices| => part.vertices[i].uv)
  }

  function UVs(parts: seq<MeshPart>): seq<Vec2> {
    if parts == [] then [] else UVs(parts[..|parts| - 1]) + PartUVs(parts[|parts| - 1])
  }

  /** The textures of a list of meshes, one per part, in order. */
  function PartTextures(parts: seq<MeshPart>): seq<nat> {
    if parts == [] then [] else PartTextures(parts[..|parts| - 1]) + [parts[|parts| - 1].texture]
  }

  function Textures(meshes: seq<Mesh>): seq<nat> {
    if meshes == [] then [] else Textures(meshes[..|meshes| - 1]) + PartTextures(meshes[|meshes| - 1].parts)
  }

  /** Left folds of Vector3.Min / Vector3.Max (and the Vector2 ones) from a starting value. */
  function MinFold3(acc: Vec3, vs: seq<Vec3>): Vec3 {
    if vs == [] then acc else Min3(MinFold3(acc, vs[..|vs| - 1]), vs[|vs| - 1])
  }

  function MaxFold3(acc: Vec3, vs: seq<Vec3>): Vec3 {
    if vs == [] then acc else Max3(MaxFold3(acc, vs[..|vs| - 1]), vs[|vs| - 1])
  }

  function MinFold2(acc: Vec2, vs: seq<Vec2>): Vec2 {
    if vs == [] then acc else Min2(MinFold2(acc, vs[..|vs| - 1]), vs[|vs| - 1])
  }

  function MaxFold2(acc: Vec2, vs: seq<Vec2>): Vec2 {
    if vs == [] then acc else Max2(MaxFold2(acc, vs[..|vs| - 1]), vs[|vs| - 1])
  }

  /** The folded minimum is below the start and every element, the maximum above. */
  lemma {:induction false} MinFold3Below(acc: Vec3, vs: seq<Vec3>)
    ensures Leq3(MinFold3(acc, vs), acc)
    ensures forall k :: 0 <= k < |vs| ==> Leq3(MinFold3(acc, vs), vs[k])
  {
    if vs != [] {
      MinFold3Below(acc, vs[..|vs| - 1]);
      assert forall k :: 0 <= k < |vs| - 1 ==> vs[k] == vs[..|vs| - 1][k];
    }
  }

  lemma {:induction false} MaxFold3Above(acc: Vec3, vs: seq<Vec3>)
    ensures Leq3(acc, MaxFold3(acc, vs))
    ensures forall k :: 0 <= k < |vs| ==> Leq3(vs[k], MaxFold3(acc, vs))
  {
    if vs != [] {
      MaxFold3Above(acc, vs[..|vs| - 1]);
      assert forall k :: 0 <= k < |vs| - 1 ==> vs[k] == vs[..|vs| - 1][k];
    }
  }

  lemma {:induction false} MinFold2Below(acc: Vec2, vs: seq<Vec2>)
    ensures Leq2(MinFold2(acc, vs), acc)
    ensures forall k :: 0 <= k < |vs| ==> Leq2(MinFold2(acc, vs), vs[k])
  {
    if vs != [] {
      MinFold2Below(acc, vs[..|vs| - 1]);
      assert forall k :: 0 <= k < |vs| - 1 ==> vs[k] == vs[..|vs| - 1][k];
    }
  }

  lemma {:induction false} MaxFold2Above(acc: Vec2, vs: seq<Vec2>)
    ensures Leq2(acc, MaxFold2(acc, vs))
    ensures forall k :: 0 <= k < |vs| ==> Leq2(vs[k], MaxFold2(acc, vs))
  {
    if vs != [] {
      MaxFold2Above(acc, vs[..|vs| - 1]);
      assert forall k :: 0 <= k < |vs| - 1 ==> vs[k] == vs[..|vs| - 1][k];
    }
  }

  /** The corners of a mesh's box before its bone transform. */
  function MeshMin(mesh: Mesh): Vec3 { MinFold3(FloatMaxVec3, Positions(mesh.parts)) }
  function MeshMax(mesh: Mesh): Vec3 { MaxFold3(FloatMinVec3, Positions(mesh.parts)) }

  /** The box BuildBoundingBox returns: both corners carried through the bone transform. */
  function MeshBox(mesh: Mesh, meshTransform: Matrix): BoundingBox {
    BoundingBox(Transform(MeshMin(mesh), meshTransform), Transform(MeshMax(mesh), meshTransform))
  }

  /** The box of every mesh of a model, each through its own parent bone. */
  function MeshBoxes(model: ModelContent): (boxes: seq<BoundingBox>)
    requires WellFormed(model)
    ensures |boxes| == |model.meshes|
  {
    seq(|model.meshes|, i requires 0 <= i < |model.meshes| =>
      MeshBox(model.meshes[i], model.bones[model.meshes[i].parentBone]))
  }

  /** Before the bone transform, every vertex of the mesh lies between the two corners. */
  lemma MeshCornersBoundVertices(mesh: Mesh)
    ensures forall k :: 0 <= k < |Positions(mesh.parts)| ==>
      Leq3(MeshMin(mesh), Positions(mesh.parts)[k]) && Leq3(Positions(mesh.parts)[k], MeshMax(mesh))
  {
    MinFold3Below(FloatMaxVec3, Positions(mesh.parts));
    MaxFold3Above(FloatMinVec3, Positions(mesh.parts));
  }

  /** BuildBoundingBox: folds Vector3.Min and Vector3.Max over the vertices of every
      part, from the largest and smallest floats, then applies the bone transform. */
  method BuildBoundingBox(mesh: Mesh, meshTransform: Matrix) returns (box: BoundingBox)
    ensures box == MeshBox(mesh, meshTransform)
  {
    var meshMax := FloatMinVec3;
    var meshMin := FloatMaxVec3;
    var p := 0;
    while p < |mesh.parts|
      invariant 0 <= p <= |mesh.parts|
      invariant meshMin == MinFold3(FloatMaxVec3, Positions(mesh.parts[..p]))
      invariant meshMax == MaxFold3(FloatMinVec3, Positions(mesh.parts[..p]))
    {
      var vertexData := mesh.parts[p].vertices;
      ghost var done := Positions(mesh.parts[..p]);
      ghost var here := PartPositions(mesh.parts[p]);
      var i := 0;
      assert done + here[..0] == done;
      while i < |vertexData|
        invariant 0 <= i <= |vertexData|
        invariant meshMin == MinFold3(FloatMaxVec3, done + here[..i])
        invariant meshMax == MaxFold3(FloatMinVec3, done + here[..i])
      {
        var vertPosition := vertexData[i].position;
        meshMin := Min3(meshMin, vertPosition);
        meshMax := Max3(meshMax, vertPosition);
        AppendNext(done, here, i);
        i := i + 1;
      }
      assert mesh.parts[..p + 1][..p] == mesh.parts[..p];
      assert here[..i] == here;
      p := p + 1;
    }
    assert mesh.parts[..p] == mesh.parts;
    meshMin := Transform(meshMin, meshTransform);
    meshMax := Transform(meshMax, meshTransform);
    box := BoundingBox(meshMin, meshMax);
  }

  /** The UV extents of a mesh: the componentwise maximum and minimum texture coordinate. */
  function UVMax(mesh: Mesh): Vec2 { MaxFold2(FloatMinVec2, UVs(mesh.parts)) }
  function UVMin(mesh: Mesh): Vec2 { MinFold2(FloatMaxVec2, UVs(mesh.parts)) }

  lemma UVExtentsBoundUVs(mesh: Mesh)
    ensures forall k :: 0 <= k < |UVs(mesh.parts)| ==>
      Leq2(UVMin(mesh), UVs(mesh.parts)[k]) && Leq2(UVs(mesh.parts)[k], UVMax(mesh))
  {
    MinFold2Below(FloatMaxVec2, UVs(mesh.parts));
    MaxFold2Above(FloatMinVec2, UVs(mesh.parts));
  }

  function MaxUVs(model: ModelContent): (uvs: seq<Vec2>)
    ensures |uvs| == |model.meshes|
  {
    seq(|model.meshes|, i requires 0 <= i < |model.meshes| => UVMax(model.meshes[i]))
  }

  function MinUVs(model: ModelContent): (uvs: seq<Vec2>)
    ensures |uvs| == |model.meshes|
  {
    seq(|model.meshes|, i requires 0 <= i < |model.meshes| => UVMin(model.meshes[i]))
  }

  /** GetUVExtents: a fresh two-element array, the maximum first and the minimum second. */
  method GetUVExtents(mesh: Mesh) returns (uvMinMax: array<Vec2>)
    ensures fresh(uvMinMax) && uvMinMax.Length == 2
    ensures uvMinMax[0] == UVMax(mesh) && uvMinMax[1] == UVMin(mesh)
  {
    uvMinMax := new Vec2[2](_ => FloatMinVec2);
    uvMinMax[1] := FloatMaxVec2;
    var p := 0;
    while p < |mesh.parts|
      invariant 0 <= p <= |mesh.parts|
      invariant uvMinMax[0] == MaxFold2(FloatMinVec2, UVs(mesh.parts[..p]))
      invariant uvMinMax[1] == MinFold2(FloatMaxVec2, UVs(mesh.parts[..p]))
    {
      var vertexData := mesh.parts[p].vertices;
      ghost var done := UVs(mesh.parts[..p]);
      ghost var here := PartUVs(mesh.parts[p]);
      var i := 0;
      assert done + here[..0] == done;
      while i < |vertexData|
        invariant 0 <= i <= |vertexData|
        invariant uvMinMax[0] == MaxFold2(FloatMinVec2, done + here[..i])
        invariant uvMinMax[1] == MinFold2(FloatMaxVec2, done + here[..i])
      {
        var vertUV := vertexData[i].uv;
        uvMinMax[0] := Max2(uvMinMax[0], vertUV);
        uvMinMax[1] := Min2(uvMinMax[1], vertUV);
        AppendNext(done, here, i);
        i := i + 1;
      }
      assert mesh.parts[..p + 1][..p] == mesh.parts[..p];
      assert here[..i] == here;
      p := p + 1;
    }
    assert mesh.parts[..p] == mesh.parts;
  }

  /** The constructor's loop over the meshes: the box and UV extents of each mesh,
      and the textures of its parts. */
  method LoadMeshes(model: ModelContent, boneMatrices: array<Matrix>)
    returns (boxes: array<BoundingBox>, maxUV: array<Vec2>, minUV: array<Vec2>, textures: seq<nat>)
    requires WellFormed(model) && boneMatrices[..] == model.bones
    ensures fresh(boxes) && fresh(maxUV) && fresh(minUV) && maxUV != minUV
    ensures boxes.Length == maxUV.Length == minUV.Length == |model.meshes|
    ensures boxes[..] == MeshBoxes(model) && maxUV[..] == MaxUVs(model) && minUV[..] == MinUVs(model)
    ensures textures == Textures(model.meshes)
  {
    var n := |model.meshes|;
    boxes := new BoundingBox[n](_ => ZeroBox);
    maxUV := new Vec2[n](_ => Vec2(0.0, 0.0));
    minUV := new Vec2[n](_ => Vec2(0.0, 0.0));
    textures := [];
    var totalMeshes := 0;
    while totalMeshes < n
      invariant 0 <= totalMeshes <= n
      invariant boxes[..totalMeshes] == MeshBoxes(model)[..totalMeshes]
      invariant maxUV[..totalMeshes] == MaxUVs(model)[..totalMeshes]
      invariant minUV[..totalMeshes] == MinUVs(model)[..totalMeshes]
      invariant textures == Textures(model.meshes[..totalMeshes])
    {
      textures := LoadMeshAt(model, boneMatrices, totalMeshes, boxes, maxUV, minUV, textures);
      totalMeshes := totalMeshes + 1;
    }
    assert model.meshes[..totalMeshes] == model.meshes;
    assert boxes[..] == boxes[..totalMeshes];
    assert maxUV[..] == maxUV[..totalMeshes] && minUV[..] == minUV[..totalMeshes];
  }

  /** One pass of the constructor's mesh loop: loads mesh i, stores its box and UV extents at
      slot i and appends the textures of its parts. */
  method LoadMeshAt(model: ModelContent, boneMatrices: array<Matrix>, i: nat,
                    boxes: array<BoundingBox>, maxUV: array<Vec2>, minUV: array<Vec2>, textures: seq<nat>)
    returns (textures': seq<nat>)
    requires WellFormed(model) && boneMatrices[..] == model.bones && i < |model.meshes|
    requires boxes.Length == maxUV.Length == minUV.Length == |model.meshes| && maxUV != minUV
    requires boxes[..i] == MeshBoxes(model)[..i]
    requires maxUV[..i] == MaxUVs(model)[..i] && minUV[..i] == MinUVs(model)[..i]
    requires textures == Textures(model.meshes[..i])
    modifies boxes, maxUV, minUV
    ensures boxes[..i + 1] == MeshBoxes(model)[..i + 1]
    ensures maxUV[..i + 1] == MaxUVs(model)[..i + 1] && minUV[..i + 1] == MinUVs(model)[..i + 1]
    ensures textures' == Textures(model.meshes[..i + 1])
  {
    var mesh := model.meshes[i];
    assert mesh in model.meshes;
    var meshTransform := boneMatrices[mesh.parentBone];
    var box, uvMax, uvMin := LoadMesh(mesh, meshTransform);
    textures' := AddPartTextures(textures, mesh.parts);
    assert model.meshes[..i + 1][..i] == model.meshes[..i];
    boxes[i] := box;
    ExtendPrefix(boxes[..], MeshBoxes(model), i);
    maxUV[i] := uvMax;
    ExtendPrefix(maxUV[..], MaxUVs(model), i);
    minUV[i] := uvMin;
    ExtendPrefix(minUV[..], MinUVs(model), i);
  }

  /** The constructor's working buffers: fresh arrays, one slot per mesh, and eight box corners. */
  method NewBuffers(n: nat)
    returns (tempBoxes: array<BoundingBox>, boxVertices: array<Vec3>, meshPos: array<Vec3>,
             screenPos: array<Vec2>, tempBoxPos: array<Vec3>)
    ensures fresh(tempBoxes) && fresh(boxVertices) && fresh(meshPos) && fresh(screenPos) && fresh(tempBoxPos)
    ensures tempBoxes.Length == meshPos.Length == screenPos.Length == tempBoxPos.Length == n
    ensures boxVertices.Length == 8 && meshPos != boxVertices && meshPos != tempBoxPos && tempBoxPos != boxVertices
  {
    tempBoxes := new BoundingBox[n](_ => ZeroBox);
    boxVertices := new Vec3[8](_ => Zero3);
    meshPos := new Vec3[n](_ => Zero3);
    screenPos := new Vec2[n](_ => Vec2(0.0, 0.0));
    tempBoxPos := new Vec3[n](_ => Zero3);
  }

  /** Reading one more element of here extends the folded sequence by that element. */
  lemma AppendNext<T>(done: seq<T>, here: seq<T>, i: nat)
    requires i < |here|
    ensures done + here[..i + 1] == (done + here[..i]) + [here[i]]
  {
    assert here[..i + 1] == here[..i] + [here[i]];
  }

  /** Two sequences that agree on a prefix and on the next element agree on the longer prefix. */
  lemma ExtendPrefix<T>(a: seq<T>, b: seq<T>, k: nat)
    requires k < |a| && k < |b| && a[..k] == b[..k] && a[k] == b[k]
    ensures a[..k + 1] == b[..k + 1]
  {
    assert forall i | 0 <= i < k :: a[i] == a[..k][i];
  }

  /** The bounding box and the UV extents of one mesh, as the constructor's loop reads them. */
  method LoadMesh(mesh: Mesh, meshTransform: Matrix) returns (box: BoundingBox, uvMax: Vec2, uvMin: Vec2)
    ensures box == MeshBox(mesh, meshTransform) && uvMax == UVMax(mesh) && uvMin == UVMin(mesh)
  {
    box := BuildBoundingBox(mesh, meshTransform);
    var uvs := GetUVExtents(mesh);
    uvMax, uvMin := uvs[0], uvs[1];
  }

  /** The inner loop of the constructor: modelTextures.Add for every part of one mesh. */
  method AddPartTextures(textures: seq<nat>, parts: seq<MeshPart>) returns (r: seq<nat>)
    ensures r == textures + PartTextures(parts)
  {
    r := textures;
    var p := 0;
    while p < |parts|
      invariant 0 <= p <= |parts|
      invariant r == textures + PartTextures(parts[..p])
    {
      assert parts[..p + 1][..p] == parts[..p];
      r := r + [parts[p].texture];
      p := p + 1;
    }
    assert parts[..p] == parts;
  }

  /** The world matrix UpdateMatrix builds: scale, then rotation, then translation. */
  function WorldMatrix(scaling: Vec3, quaternion: Quaternion, position: Vec3): (m: Matrix)
    ensures Translation(m) == position
    ensures scaling == One3 && quaternion == IdentityQuaternion && position == Zero3 ==> m == Identity
  {
    Mul(Mul(CreateScale(scaling), CreateFromQuaternion(quaternion)), CreateTranslation(position))
  }

  /** The centre of a box, (Max + Min) / 2, which lies inside any box whose corners are ordered. */
  function Midpoint(b: BoundingBox): (c: Vec3)
    ensures Leq3(b.min, b.max) ==> Leq3(b.min, c) && Leq3(c, b.max)
  {
    Scale(Add(b.max, b.min), 0.5)
  }

  const ZeroBox := BoundingBox(Zero3, Zero3)

  class InstancedModel {
    const content: ModelContent
    const totalMeshes: nat
    var totalVisible: nat
    var position: Vec3
    var scaling: Vec3
    var rotation: Vec3
    var quaternion: Quaternion
    var modelMatrix: Matrix
    var modelTextures: seq<nat>
    var visibleMeshes: map<nat, Mesh>
    /** Filled by the constructor and never written again, so held as a sequence. */
    const boundingBoxes: seq<BoundingBox>
    const tempBoxes: array<BoundingBox>
    const tempBoxPos: array<Vec3>
    const meshPos: array<Vec3>
    const screenPos: array<Vec2>
    const maxUV: array<Vec2>
    const minUV: array<Vec2>
    const boxVertices: array<Vec3>
    const boneMatrices: array<Matrix>
    var instances: seq<EntityInstance>
    var visibleInstances: seq<EntityInstance>
    var initialInstanceCount: int
    /** The player of an animated model; None until one is attached. */
    var animationPlayer: Option<AnimationPlayer>

    /** The objects that make up this model. */
    ghost function Repr(): set<object> {
      {this, tempBoxes, tempBoxPos, meshPos, screenPos, maxUV, minUV, boxVertices, boneMatrices}
    }

    /** One mesh count for the content, the boxes and the transformed boxes: what culling relies on. */
    predicate Sized() {
      totalMeshes == |content.meshes| && |boundingBoxes| == totalMeshes && tempBoxes.Length == totalMeshes
    }

    /** The buffers have the sizes the content calls for and the ones written together are
        different arrays. Lengths and array identities never change, so this reads no state. */
    predicate Shaped() {
      Sized() &&
      tempBoxPos.Length == totalMeshes && meshPos.Length == totalMeshes &&
      screenPos.Length == totalMeshes && maxUV.Length == totalMeshes && minUV.Length == totalMeshes &&
      boxVertices.Length == 8 && boneMatrices.Length == |content.bones| &&
      meshPos != tempBoxPos && meshPos != boxVertices &&
      tempBoxPos != boxVertices && screenPos != maxUV && screenPos != minUV && maxUV != minUV
    }

    ghost predicate Valid()
      reads this
    {
      Shaped() &&
      (forall k :: k in visibleMeshes ==> k < totalMeshes && visibleMeshes[k] == content.meshes[k]) &&
      initialInstanceCount == |instances|
    }

    /** The constructor: loads the content, sizes every per-mesh buffer to the mesh count,
        builds each mesh's box and UV extents, and starts with one default instance. */
    constructor (model: ModelContent)
      requires WellFormed(model)
      ensures Valid() && fresh(Repr()) && fresh(tempBoxes)
      ensures content == model && totalMeshes == |model.meshes|
      ensures boundingBoxes == MeshBoxes(model)
      ensures maxUV[..] == MaxUVs(model) && minUV[..] == MinUVs(model)
      ensures boneMatrices[..] == model.bones
      ensures modelTextures == Textures(model.meshes)
      ensures totalVisible == 0 && visibleMeshes == map[] && animationPlayer == None
      ensures scaling == One3 && position == Zero3 && rotation == Zero3
      ensures quaternion == IdentityQuaternion && modelMatrix == Identity
      ensures |instances| == 1 && fresh(instances[0]) && instances[0].transform == Identity
      ensures initialInstanceCount == 1 && visibleInstances == []
    {
      var n := |model.meshes|;
      var bones := new Matrix[|model.bones|](i requires 0 <= i < |model.bones| => model.bones[i]);
      var boxes, maxs, mins, textures := LoadMeshes(model, bones);
      var temps, corners, centres, screen, boxCentres := NewBuffers(n);
      var first := new EntityInstance();
      content := model;
      totalMeshes := n;
      totalVisible := 0;
      scaling := One3;
      animationPlayer := None;
      modelTextures := textures;
      visibleMeshes := map[];
      boundingBoxes := boxes[..];
      tempBoxes, boxVertices, meshPos, screenPos, tempBoxPos := temps, corners, centres, screen, boxCentres;
      boneMatrices := bones;
      maxUV := maxs;
      minUV := mins;
      position := Zero3;
      rotation := Zero3;
      modelMatrix := Identity;
      quaternion := IdentityQuaternion;
      initialInstanceCount := 1;
      visibleInstances := [];
      instances := [first];
    }

    /** AddInstance: one more instance with the given transform, and one more in the count. */
    method AddInstance(transform: Matrix)
      requires Valid()
      modifies this`instances, this`initialInstanceCount
      ensures Valid()
      ensures initialInstanceCount == old(initialInstanceCount) + 1
      ensures |instances| == |old(instances)| + 1 && instances[..|old(instances)|] == old(instances)
      ensures fresh(instances[|old(instances)|]) && instances[|old(instances)|].transform == transform
    {
      initialInstanceCount := initialInstanceCount + 1;
      var instance := new EntityInstance.WithTransform(transform);
      instances := instances + [instance];
    }

    /** The fluent setters: each assigns its own field and returns this same model. */
    method Translate(x: real, y: real, z: real) returns (self: InstancedModel)
      requires Valid()
      modifies this`position
      ensures Valid() && self == this && position == Vec3(x, y, z)
    {
      position := Vec3(x, y, z);
      self := this;
    }

    method TranslateTo(translate: Vec3) returns (self: InstancedModel)
      requires Valid()
      modifies this`position
      ensures Valid() && self == this && position == translate
    {
      position := translate;
      self := this;
    }

    method Scale(x: real, y: real, z: real) returns (self: InstancedModel)
      requires Valid()
      modifies this`scaling
      ensures Valid() && self == this && scaling == Vec3(x, y, z)
    {
      scaling := Vec3(x, y, z);
      self := this;
    }

    /** Scale(float): the same factor on all three axes. */
    method ScaleUniform(scale: real) returns (self: InstancedModel)
      requires Valid()
      modifies this`scaling
      ensures Valid() && self == this
      ensures scaling.x == scale && scaling.y == scale && scaling.z == scale
    {
      scaling := Vec3(scale, scale, scale);
      self := this;
    }

    method Rotate(quat: Quaternion) returns (self: InstancedModel)
      requires Valid()
      modifies this`quaternion
      ensures Valid() && self == this && quaternion == quat
    {
      quaternion := quat;
      self := this;
    }

    /** UpdateMatrix: rebuilds the world matrix, then refreshes every mesh's transformed
        box and its centre, and returns the matrix. */
    method UpdateMatrix() returns (m: Matrix)
      requires Valid()
      modifies this`modelMatrix, tempBoxes, meshPos
      ensures Valid()
      ensures m == modelMatrix && m == WorldMatrix(scaling, quaternion, position)
      ensures forall i :: 0 <= i < totalMeshes ==>
        tempBoxes[i] == TransformBox(boundingBoxes[i], m) && meshPos[i] == Midpoint(tempBoxes[i])
    {
      modelMatrix := WorldMatrix(scaling, quaternion, position);
      var i := 0;
      while i < totalMeshes
        invariant 0 <= i <= totalMeshes
        invariant modelMatrix == WorldMatrix(scaling, quaternion, position)
        invariant forall k :: 0 <= k < i ==>
          tempBoxes[k] == TransformBox(boundingBoxes[k], modelMatrix) && meshPos[k] == Midpoint(tempBoxes[k])
      {
        tempBoxes[i] := boundingBoxes[i];
        tempBoxes[i] := tempBoxes[i].(min := Geometry.Transform(boundingBoxes[i].min, modelMatrix));
        tempBoxes[i] := tempBoxes[i].(max := Geometry.Transform(boundingBoxes[i].max, modelMatrix));
        meshPos[i] := Midpoint(tempBoxes[i]);
        i := i + 1;
      }
      m := modelMatrix;
    }

    /** Between two states, nothing of this model but its visible-mesh map has changed. */
    twostate predicate OnlyVisibilityChanged()
      reads this
    {
      totalVisible == old(totalVisible) && position == old(position) && scaling == old(scaling) &&
      rotation == old(rotation) && quaternion == old(quaternion) && modelMatrix == old(modelMatrix) &&
      modelTextures == old(modelTextures) && instances == old(instances) &&
      visibleInstances == old(visibleInstances) && initialInstanceCount == old(initialInstanceCount) &&
      animationPlayer == old(animationPlayer)
    }

    /** The Transform getter. */
    function Transform(): Matrix
      reads this
    {
      modelMatrix
    }

    /** The Transform setter: replaces the matrix and refreshes nothing else. */
    method SetTransform(value: Matrix)
      requires Valid()
      modifies this`modelMatrix
      ensures Valid() && modelMatrix == value
    {
      modelMatrix := value;
    }
  }
}
