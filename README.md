# Meteor Rendering Engine core, modelled in Dafny

This project models the logic of the Meteor Rendering Engine, an XNA deferred and
light-pre-pass renderer, that decides what the GPU is asked to draw. The drawing itself is
not modelled. The model covers:

- **Scene and registries** (`Scenes`, `Scene.dfy`): the static, skinned and blended model
  dictionaries, the ordered-mesh slot list sized to the static meshes, point lights, the
  skybox and the `Model(key)` lookup.
- **Instanced models and entities** (`Models`, `Entities`, `Lights`): model construction
  (mesh boxes, texture extents, working buffers), instances, the fluent transform setters
  and `UpdateMatrix`, instance comparison and distances, and the point light's instance
  transform encoding.
- **Visibility and draw ordering** (`SceneRendering`): light culling, the frustum culling of
  every model list with its visible and culled counters, the ignore-culling path that fills
  the ordered-mesh slots with priority records and sorts them, and `MakeModelVisible`.
- **Cameras** (`Cameras`): the camera's setters, `Initialize`, the projection, the
  previous-view snapshot, the cascade split formula, and the chase camera's spring step.
- **Render passes and profiles** (`Rendering`, `Profiles`): pass inputs and the
  `"target_i"` input map, the renderer factory as a name-to-kind map, the profile's
  render-target list, and the wiring and draw order of the light pre-pass and deferred
  profiles.
- **The lighting pass** (`LightShading`): the stages of `Draw`, the 8 by 8 shadow-map atlas
  with at most 64 meshes per light, batches of 12 light matrices for projected shadows, the
  light-space box fit, and the inner/outer point-light groups in their 1000-slot arrays.
- **Small helpers**: shadow-map detail steps (`ShadowMapping`), the symmetric Gaussian tap
  layout and its normalisation (`Blurs`), the full-screen quad (`Quads`) and frame statistics
  (`Statistics`).

Geometry is over `real`. XNA's matrix constructors, `BoundingFrustum` tests and the
`Math` functions are opaque functions, bundled as the fields of `Geometry.Library` and
`Geometry.Frustum`. Every failure the source would raise as an exception (a missing
dictionary key, a duplicate key, an index out of range, a null reference) is an
`Outcomes.Outcome` or `Result` value.
Objects whose fields the source updates in place are classes; loops are `while` loops with
their invariants.

## Model

| member | source | states |
|---|---|---|
| Entities.EntityInstance.constructor | MeteorEngine/MeteorEngine/Graphics/Components/EntityInstance.cs:65-76 | a new instance has the identity transform, unit scale, largest scale 1 and an opaque white instance colour, at the origin and distance 0 |
| Entities.EntityInstance.WithTransform | MeteorEngine/MeteorEngine/Graphics/Components/EntityInstance.cs:79-88 | an instance built from a transform keeps that transform but leaves scale and largest scale at zero, with the same opaque white instance colour |
| Entities.EntityInstance.CompareTo | MeteorEngine/MeteorEngine/Graphics/Components/EntityInstance.cs:34-38 | the comparison is -1, 0 or 1; it is negative exactly when this instance is farther from the camera than the other and zero exactly when both are equally far, so sorting puts far instances first |
| Entities.CompareToAntisymmetric | MeteorEngine/MeteorEngine/Graphics/Components/EntityInstance.cs:34-38 | comparing a with b gives the negation of comparing b with a |
| Entities.EntityInstance.Update | MeteorEngine/MeteorEngine/Graphics/Components/EntityInstance.cs:94-99 | the instance's position becomes the translation row of its transform; nothing else changes |
| Entities.EntityInstance.UpdateDistanceTo | MeteorEngine/MeteorEngine/Graphics/Components/EntityInstance.cs:104-107 | the stored distance is the distance from the position to the destination and is never negative |
| Lights.PackedValue | MeteorEngine/MeteorEngine/Graphics/Components/Lights/PointLight.cs:51 | the packed colour of a light fits in 32 bits |
| Lights.UnpackPacked | MeteorEngine/MeteorEngine/Graphics/Components/Lights/PointLight.cs:51 | unpacking the packed value gives back the red, green, blue and alpha bytes it was packed from |
| Lights.SphereWorldMatrix | MeteorEngine/MeteorEngine/Graphics/Components/Lights/PointLight.cs:47-48 | the light's sphere matrix scales by the radius and translates to the position: its translation is the position and its first row has squared length radius squared |
| Lights.NewPointLight | MeteorEngine/MeteorEngine/Graphics/Components/Lights/PointLight.cs:38-52 | a new point light keeps its position, colour, radius and intensity and its instance already encodes them, with the colour recoverable from the packed value |
| Lights.Update | MeteorEngine/MeteorEngine/Graphics/Components/Lights/PointLight.cs:54-61 | after an update the instance encodes the light's position and radius again; position, radius, intensity, colour and the packed colour are untouched |
| Lights.UpdateIdempotent | MeteorEngine/MeteorEngine/Graphics/Components/Lights/PointLight.cs:54-61 | updating twice is the same as updating once, and a light whose instance already encodes it is left as it is |
| Lights.DecodeEncoded | MeteorEngine/MeteorEngine/Graphics/Components/Lights/PointLight.cs:47-50 | from an encoded light's instance matrix the culling code reads back the light's centre and its squared radius |
| Lights.NewDirectionLight | MeteorEngine/MeteorEngine/Graphics/Components/Lights/DirectionalLight.cs:27-33 | a new directional light keeps its direction and colour, has intensity 1 and casts no shadows |
| Scenes.Registry.Get | MeteorEngine/MeteorEngine/Graphics/Scene.cs:23-25 | looking up a key the dictionary holds gives the model stored under that key, a well-sized model from the dictionary's values |
| Scenes.Registry.Add | MeteorEngine/MeteorEngine/Graphics/Scene.cs:135-136 | adding a new key appends the entry last, keeps the dictionary valid, makes the key find the new model and leaves every earlier key's lookup unchanged |
| Scenes.IndexOf | MeteorEngine/MeteorEngine/Graphics/Scene.cs:23 | the position found holds the key and no earlier position does |
| Scenes.MeshCountAppend | MeteorEngine/MeteorEngine/Graphics/Scene.cs:137-140 | adding a model to a list adds exactly its meshes to the list's mesh count |
| Scenes.Scene.constructor | MeteorEngine/MeteorEngine/Graphics/Scene.cs:98-107 | a new scene has empty model dictionaries, no ordered meshes, no skybox, no lights, zero ambient light and zeroed statistics |
| Scenes.Scene.TotalLights | MeteorEngine/MeteorEngine/Graphics/Scene.cs:39-53 | the total light count is the number of visible point lights |
| Scenes.Scene.AddPointLight | MeteorEngine/MeteorEngine/Graphics/Scene.cs:119-126 | the new light, built from the given position, colour, radius and intensity, is appended to the scene's point lights and returned |
| Scenes.Scene.AddModel | MeteorEngine/MeteorEngine/Graphics/Scene.cs:133-143 | a path already in the static models fails with a duplicate key and changes nothing; otherwise a fresh model of that content is added under the path and one ordered-mesh slot is appended per mesh |
| Scenes.Scene.AddModelName | MeteorEngine/MeteorEngine/Graphics/Scene.cs:145-155 | as AddModel, with the model stored under the given name |
| Scenes.Scene.AddSkinnedModel | MeteorEngine/MeteorEngine/Graphics/Scene.cs:167-186 | a duplicate path fails and changes nothing; otherwise the model is added to the skinned models, and the call fails with an invalid operation when the content has no skinning data, fails with key-not-found (the model staying registered) when there is no "Take 001" clip, and otherwise starts that clip |
| Scenes.Scene.AddBlendModel | MeteorEngine/MeteorEngine/Graphics/Scene.cs:202-208 | a duplicate path fails and changes nothing; otherwise a fresh model is added to the blended models under the path |
| Scenes.Scene.AddSkybox | MeteorEngine/MeteorEngine/Graphics/Scene.cs:192-196 | the skybox becomes a fresh model of the given content |
| Scenes.Scene.Model | MeteorEngine/MeteorEngine/Graphics/Scene.cs:214-224 | the lookup succeeds exactly when the key is a static or a skinned model; static models win over skinned ones; a missing key fails with key-not-found |
| Scenes.AppendSlots | MeteorEngine/MeteorEngine/Graphics/Scene.cs:137-140 | one empty ordered-mesh slot is appended per mesh of the model and the existing slots are kept |
| Scenes.LoadModel | MeteorEngine/MeteorEngine/Graphics/Scene.cs:136 | loading gives a fresh, valid model of the content with no animation and no visible meshes yet |
| Models.MinFold3Below | MeteorEngine/MeteorEngine/Graphics/Components/InstancedModel.cs:246 | the running Vector3.Min over a list of positions is below the start value and below every position, coordinate by coordinate |
| Models.MaxFold3Above | MeteorEngine/MeteorEngine/Graphics/Components/InstancedModel.cs:247 | the running Vector3.Max is above the start value and above every position |
| Models.MinFold2Below | MeteorEngine/MeteorEngine/Graphics/Components/InstancedModel.cs:289 | the running Vector2.Min over texture coordinates is below the start value and every coordinate pair |
| Models.MaxFold2Above | MeteorEngine/MeteorEngine/Graphics/Components/InstancedModel.cs:288 | the running Vector2.Max is above the start value and every coordinate pair |
| Models.MeshBoxes | MeteorEngine/MeteorEngine/Graphics/Components/InstancedModel.cs:172-175 | the model keeps one bounding box per mesh |
| Models.MeshCornersBoundVertices | MeteorEngine/MeteorEngine/Graphics/Components/InstancedModel.cs:224-248 | the two corners computed for a mesh enclose every vertex position of every part of the mesh |
| Models.BuildBoundingBox | MeteorEngine/MeteorEngine/Graphics/Components/InstancedModel.cs:221-258 | the loop over the parts and their vertices computes the mesh's enclosing corners, carried through the mesh's bone transform |
| Models.UVExtentsBoundUVs | MeteorEngine/MeteorEngine/Graphics/Components/InstancedModel.cs:264-294 | the two texture-coordinate extents of a mesh enclose every texture coordinate of its vertices |
| Models.GetUVExtents | MeteorEngine/MeteorEngine/Graphics/Components/InstancedModel.cs:264-294 | the loop returns a fresh two-entry array holding the largest texture coordinates first and the smallest second |
| Models.LoadMeshes | MeteorEngine/MeteorEngine/Graphics/Components/InstancedModel.cs:172-206 | the constructor's mesh loop fills one box and one pair of texture extents per mesh, in mesh order, and collects the texture of every part of every mesh in order |
| Models.LoadMeshAt | MeteorEngine/MeteorEngine/Graphics/Components/InstancedModel.cs:174-205 | one pass of that loop extends the filled prefix of each buffer and of the texture list by mesh i |
| Models.NewBuffers | MeteorEngine/MeteorEngine/Graphics/Components/InstancedModel.cs:151-157 | the working buffers are fresh, distinct, one slot per mesh, with eight box corners |
| Models.LoadMesh | MeteorEngine/MeteorEngine/Graphics/Components/InstancedModel.cs:174-179 | a mesh's box and texture extents are the ones its vertices determine |
| Models.AddPartTextures | MeteorEngine/MeteorEngine/Graphics/Components/InstancedModel.cs:181-204 | every part's texture is appended to the texture list, in part order |
| Models.WorldMatrix | MeteorEngine/MeteorEngine/Graphics/Components/InstancedModel.cs:368-370 | the model matrix translates to the model's position, and is the identity for unit scale, no rotation and the origin |
| Models.Midpoint | MeteorEngine/MeteorEngine/Graphics/Components/InstancedModel.cs:379 | the centre of a well-ordered box lies inside the box |
| Models.InstancedModel.constructor | MeteorEngine/MeteorEngine/Graphics/Components/InstancedModel.cs:125-215 | a new model has one box and one pair of texture extents per mesh, the content's bone transforms and part textures, nothing visible, unit scale at the origin with no rotation and identity matrix, and one instance with the identity transform |
| Models.InstancedModel.AddInstance | MeteorEngine/MeteorEngine/Graphics/Components/InstancedModel.cs:301-307 | a fresh instance with the given transform is appended, the earlier instances are kept and the initial instance count grows by one |
| Models.InstancedModel.Translate | MeteorEngine/MeteorEngine/Graphics/Components/InstancedModel.cs:313-317 | the position becomes (x, y, z) and the model itself is returned for chaining |
| Models.InstancedModel.TranslateTo | MeteorEngine/MeteorEngine/Graphics/Components/InstancedModel.cs:319-323 | the position becomes the given vector and the model itself is returned |
| Models.InstancedModel.Scale | MeteorEngine/MeteorEngine/Graphics/Components/InstancedModel.cs:329-333 | the scaling becomes (x, y, z) and the model itself is returned |
| Models.InstancedModel.ScaleUniform | MeteorEngine/MeteorEngine/Graphics/Components/InstancedModel.cs:335-339 | all three scale factors become the given scale and the model itself is returned |
| Models.InstancedModel.Rotate | MeteorEngine/MeteorEngine/Graphics/Components/InstancedModel.cs:356-360 | the rotation quaternion becomes the given one and the model itself is returned |
| Models.InstancedModel.UpdateMatrix | MeteorEngine/MeteorEngine/Graphics/Components/InstancedModel.cs:366-383 | the model matrix is rebuilt from scale, rotation and position, every mesh box is carried through it and every mesh position is the centre of its transformed box |
| Models.InstancedModel.SetTransform | MeteorEngine/MeteorEngine/Graphics/Components/InstancedModel.cs:385-389 | the model matrix becomes the given matrix |
| SceneRendering.Compare | MeteorEngine/MeteorEngine/Graphics/Components/SceneRenderer.cs:17-24 | the mesh priority comparison is -1, 0 or 1: negative exactly when the first mesh has the higher priority, zero exactly on equal priorities, positive exactly when the second is higher |
| SceneRendering.CompareAntisymmetric | MeteorEngine/MeteorEngine/Graphics/Components/SceneRenderer.cs:17-24 | swapping the two meshes negates the comparison |
| SceneRendering.SortByPriority | MeteorEngine/MeteorEngine/Graphics/Components/SceneRenderer.cs:282 | the sorted list is a permutation of the ordered meshes with priorities never increasing |
| SceneRendering.InsertByPriority | MeteorEngine/MeteorEngine/Graphics/Components/SceneRenderer.cs:282 | inserting one mesh into a list sorted by priority keeps it sorted and adds exactly that mesh |
| SceneRendering.InsertKeepsOrder | MeteorEngine/MeteorEngine/Graphics/Components/SceneRenderer.cs:282 | placing a mesh after every mesh of at least its priority and before the first of lower priority keeps the list sorted |
| SceneRendering.VisibleLights | MeteorEngine/MeteorEngine/Graphics/Components/SceneRenderer.cs:101-122 | culling never yields more lights than the scene has |
| SceneRendering.VisibleLightsMembers | MeteorEngine/MeteorEngine/Graphics/Components/SceneRenderer.cs:101-122 | a light is kept exactly when it is one of the scene's lights and its bounding sphere is not disjoint from the frustum |
| SceneRendering.VisibleLightsAppend | MeteorEngine/MeteorEngine/Graphics/Components/SceneRenderer.cs:101-122 | culling a concatenation of light lists is the concatenation of the culled lists, so culling keeps the lights' order |
| SceneRendering.LightBoundsOfEncoded | MeteorEngine/MeteorEngine/Graphics/Components/SceneRenderer.cs:103-116 | for a light whose instance encodes it, the sphere read back from the matrix is centred on the light with the length of its radius vector as radius |
| SceneRendering.CullLights | MeteorEngine/MeteorEngine/Graphics/Components/SceneRenderer.cs:91-124 | the visible lights are replaced by the scene's point lights that the frustum does not exclude, in order |
| SceneRendering.KeptMeshesMembers | MeteorEngine/MeteorEngine/Graphics/Components/SceneRenderer.cs:192-208 | a mesh index is in a model's visible meshes exactly when its transformed box meets the frustum, and it maps to that mesh |
| SceneRendering.KeptMeshesStep | MeteorEngine/MeteorEngine/Graphics/Components/SceneRenderer.cs:200-208 | each mesh in view adds one visible mesh and each mesh out of view adds none |
| SceneRendering.KeptMeshesBound | MeteorEngine/MeteorEngine/Graphics/Components/SceneRenderer.cs:192-208 | a model never has more visible meshes than meshes examined |
| SceneRendering.CullModel | MeteorEngine/MeteorEngine/Graphics/Components/SceneRenderer.cs:187-219 | after one model is culled its visible meshes are exactly those whose transformed box meets the frustum, every working box is its mesh box carried through the model matrix, and the scene's visible and culled counters grow by the visible and hidden meshes |
| SceneRendering.CullMesh | MeteorEngine/MeteorEngine/Graphics/Components/SceneRenderer.cs:194-207 | one mesh's working box is set to its transformed box, the mesh is added to the visible meshes exactly when that box meets the frustum, and exactly one of the two counters grows by one |
| SceneRendering.VisibleTotalBound | MeteorEngine/MeteorEngine/Graphics/Components/SceneRenderer.cs:187-219 | the visible meshes of a model list never outnumber the list's meshes |
| SceneRendering.VisibleTotalStep | MeteorEngine/MeteorEngine/Graphics/Components/SceneRenderer.cs:187-219 | each further model adds its own visible meshes to the visible total and its meshes to the mesh total |
| SceneRendering.CullFromModelList | MeteorEngine/MeteorEngine/Graphics/Components/SceneRenderer.cs:183-220 | every model of the list ends culled: its visible meshes are exactly those whose transformed box meets the frustum and every working box is its mesh box carried through the model matrix; models culled earlier stay culled, no model matrix changes, and the counters grow by the list's visible meshes and by its hidden meshes |
| SceneRendering.CullModelMeshes | MeteorEngine/MeteorEngine/Graphics/Components/SceneRenderer.cs:130-138 | every static, skinned and blended model ends culled against the frustum with its working boxes refreshed; the visible count is the number of meshes in view, and visible plus culled is the scene's total mesh count |
| SceneRendering.AllVisibleInput | MeteorEngine/MeteorEngine/Graphics/Components/SceneRenderer.cs:130-138 | for a scene holding a recorded input (its three registries, each model at its recorded world matrix), the meshes culling keeps are those kept with the recorded matrices, and the scene's total mesh count is the recorded one |
| SceneRendering.VisibleTotalConcat | MeteorEngine/MeteorEngine/Graphics/Components/SceneRenderer.cs:135-137 | culling the static, then the skinned, then the blended list keeps the sum of what each list keeps on its own |
| SceneRendering.CullAllModels | MeteorEngine/MeteorEngine/Graphics/Components/SceneRenderer.cs:144-164 | both counters are zero and every static, skinned and blended model has no visible meshes |
| SceneRendering.ClearAll | MeteorEngine/MeteorEngine/Graphics/Components/SceneRenderer.cs:150-163 | every model of the list ends with no visible meshes |
| SceneRendering.MeshRecordsAt | MeteorEngine/MeteorEngine/Graphics/Components/SceneRenderer.cs:269-271 | the j-th record written for a model names the model, mesh j and that mesh's priority |
| SceneRendering.ListRecordsLength | MeteorEngine/MeteorEngine/Graphics/Components/SceneRenderer.cs:256-277 | the records written for a list of models number exactly the list's meshes |
| SceneRendering.AllMeshesMembers | MeteorEngine/MeteorEngine/Graphics/Components/SceneRenderer.cs:273 | after a model is made visible its visible meshes are exactly mesh indices 0 to n-1, each mapped to its mesh |
| SceneRendering.FillModel | MeteorEngine/MeteorEngine/Graphics/Components/SceneRenderer.cs:258-277 | one model's records overwrite the ordered-mesh slots from position i on, for as many meshes as fit; the call succeeds exactly when all of them fit, and the counters and visible meshes follow the records written |
| SceneRendering.MeshPriority | MeteorEngine/MeteorEngine/Graphics/Components/SceneRenderer.cs:263-271 | the loop body's priority is the mesh's scaled bounding radius over its distance to the camera, the distance floored at 0.01 |
| SceneRendering.FillNext | MeteorEngine/MeteorEngine/Graphics/Components/SceneRenderer.cs:256-279 | one pass of the model loop either keeps the fill invariant for the next model or stops with every slot overwritten by the leading records |
| SceneRendering.FillModels | MeteorEngine/MeteorEngine/Graphics/Components/SceneRenderer.cs:256-279 | the records of all models overwrite the leading ordered-mesh slots; this succeeds exactly when they fit, and otherwise every slot holds the first records and the list indexer would go out of range |
| SceneRendering.AllRecords | MeteorEngine/MeteorEngine/Graphics/Components/SceneRenderer.cs:256-277 | there is one record per mesh of the dictionary |
| SceneRendering.MakeModelsVisible | MeteorEngine/MeteorEngine/Graphics/Components/SceneRenderer.cs:248-283 | with no ordered meshes nothing changes, not even a model's visible meshes; when the records overflow the slots the call fails with an index out of range after filling every slot; otherwise the slots become a priority-sorted permutation of the records followed by the untouched slots, every model of the dictionary shows every mesh, and models outside it that already showed every mesh still do |
| SceneRendering.IgnoreCulling | MeteorEngine/MeteorEngine/Graphics/Components/SceneRenderer.cs:170-177 | culled meshes become zero; the skinned pass overwrites the front of the slots the static pass sorted, fails exactly when the skinned records outnumber non-empty slots, and otherwise leaves a sorted list holding every skinned record and only static records besides; with no slots every model keeps its visible meshes, and after a successful call every static and skinned model shows every mesh |
| SceneRendering.MakeStaticsVisible | MeteorEngine/MeteorEngine/Graphics/Components/SceneRenderer.cs:170-176 | the static pass cannot fail, since the list has one slot per static mesh: with no static meshes nothing changes; otherwise the list becomes a priority-sorted permutation of the static records and every static model shows every mesh |
| SceneRendering.MakeModelVisible | MeteorEngine/MeteorEngine/Graphics/Components/SceneRenderer.cs:226-242 | a missing model name fails with key-not-found and changes nothing; a mesh id in range adds that mesh to the model's visible meshes, failing with a duplicate key when it is already there; an id out of range changes nothing; no other model changes |
| Cameras.Truncate | MeteorEngine/MeteorEngine/Graphics/Components/Cameras/Camera.cs:159-160 | the (int) cast rounds toward zero: the result is within one of the value, on the zero side, and keeps its sign |
| Cameras.ClampSplit | MeteorEngine/MeteorEngine/Graphics/Components/Cameras/Camera.cs:106 | the split index is never above the split count or the index asked for, and is one of the two |
| Cameras.SplitBlendEnds | MeteorEngine/MeteorEngine/Graphics/Components/Cameras/Camera.cs:112-118 | with lambda 1 the split distance is the logarithmic split and with lambda 0 it is the linear one |
| Cameras.LinearSplitIncreasing | MeteorEngine/MeteorEngine/Graphics/Components/Cameras/Camera.cs:114-115 | the linear split runs from the near plane at split 0 to the far plane at the last split and strictly increases in between |
| Cameras.SplitsAbut | MeteorEngine/MeteorEngine/Graphics/Components/Cameras/Camera.cs:112-127 | for any split below the count, the far boundary of split s is the near boundary of split s+1, so consecutive cascades meet without gap or overlap |
| Cameras.Camera.constructor | MeteorEngine/MeteorEngine/Graphics/Components/Cameras/Camera.cs:130-136 | a default camera sits 4 units up with yaw -90 and no pitch, clips at 1 and 1000, and its split planes start at the clipping planes |
| Cameras.Camera.Placed | MeteorEngine/MeteorEngine/Graphics/Components/Cameras/Camera.cs:138-150 | a placed camera takes the given position, and yaw and pitch from the orientation for both its current and its target angles, and its split planes start at the clipping planes |
| Cameras.Camera.GetFrustumSplit | MeteorEngine/MeteorEngine/Graphics/Components/Cameras/Camera.cs:103-128 | the near split plane becomes the blended distance of the clamped split and the far split plane that of the next one, and the result is the near plane pulled in by 5% with the far plane |
| Cameras.Camera.Initialize | MeteorEngine/MeteorEngine/Graphics/Components/Cameras/Camera.cs:156-170 | the viewport size is the truncated width and height, the field of view is pi/4, the frustum and world matrix are the identity, the view centre is half the size, and the projection is rebuilt for the new aspect ratio |
| Cameras.Camera.UpdateNearFar | MeteorEngine/MeteorEngine/Graphics/Components/Cameras/Camera.cs:175-180 | the clipping planes become the given pair and the projection is rebuilt with them |
| Cameras.Camera.UpdateProjection | MeteorEngine/MeteorEngine/Graphics/Components/Cameras/Camera.cs:213-218 | the aspect ratio is width over height and the projection is the perspective for it |
| Cameras.Camera.SetLookAt | MeteorEngine/MeteorEngine/Graphics/Components/Cameras/Camera.cs:182-185 | the camera's position becomes the given point |
| Cameras.Camera.SetOrientation | MeteorEngine/MeteorEngine/Graphics/Components/Cameras/Camera.cs:187-191 | the target yaw and pitch become the given orientation |
| Cameras.Camera.SetView | MeteorEngine/MeteorEngine/Graphics/Components/Cameras/Camera.cs:37-41 | the view matrix becomes the given matrix |
| Cameras.Camera.SetProjection | MeteorEngine/MeteorEngine/Graphics/Components/Cameras/Camera.cs:44-48 | the projection matrix becomes the given matrix |
| Cameras.Camera.Update | MeteorEngine/MeteorEngine/Graphics/Components/Cameras/Camera.cs:193-199 | the previous view and projection are saved, the view looks from the position along the world matrix's forward axis, and the frustum becomes view times projection, failing with a null reference before Initialize |
| Cameras.Camera.UpdateMatrices | MeteorEngine/MeteorEngine/Graphics/Components/Cameras/Camera.cs:204-208 | the view looks along the world matrix's forward axis and the frustum is view times projection, failing with a null reference when there is no frustum yet |
| Cameras.SpringStepScales | MeteorEngine/MeteorEngine/Graphics/Components/Cameras/ChaseCamera.cs:176-184 | one spring step shrinks the offset from the desired position by the factor 1 - elapsed * stiffness, and lands on the desired position when that factor is zero |
| Cameras.SpringStepsDecay | MeteorEngine/MeteorEngine/Graphics/Components/Cameras/ChaseCamera.cs:174-185 | after n frames the offset from a fixed desired position is the first offset times the factor to the n-th power |
| Cameras.ChaseTransform | MeteorEngine/MeteorEngine/Graphics/Components/Cameras/ChaseCamera.cs:107-110 | the chase transform's forward axis is the chase direction, its up axis is up, its right axis is up cross direction, and it has no translation |
| Cameras.ChaseCamera.constructor | MeteorEngine/MeteorEngine/Graphics/Components/Cameras/ChaseCamera.cs:21-88 | a chase camera starts as a default camera with up along Y, the camera 30 above and 60 behind the target, looking 40.8 ahead, with stiffness 10, damping 0, mass 5 and no velocity |
| Cameras.ChaseCamera.UpdateChaseTarget | MeteorEngine/MeteorEngine/Graphics/Components/Cameras/ChaseCamera.cs:93-98 | the chased position and direction become the given ones and up is reset to the Y axis |
| Cameras.ChaseCamera.UpdateWorldPositions | MeteorEngine/MeteorEngine/Graphics/Components/Cameras/ChaseCamera.cs:104-117 | the desired camera position and the look-at point are the two offsets carried into world space by the chase transform and moved to the chased position |
| Cameras.ChaseCamera.DesiredPosition | MeteorEngine/MeteorEngine/Graphics/Components/Cameras/ChaseCamera.cs:37-45 | reading the desired position first refreshes both world positions and returns the refreshed desired position |
| Cameras.ChaseCamera.LookAt | MeteorEngine/MeteorEngine/Graphics/Components/Cameras/ChaseCamera.cs:56-64 | reading the look-at point first refreshes both world positions and returns the refreshed look-at point |
| Cameras.ChaseCamera.UpdateMatrices | MeteorEngine/MeteorEngine/Graphics/Components/Cameras/ChaseCamera.cs:122-135 | the world positions are refreshed, the world matrix is reset to the identity, the view looks from the camera position at the look-at point, and the frustum follows the view, failing with a null reference before Initialize |
| Cameras.ChaseCamera.UpdateSnapshot | MeteorEngine/MeteorEngine/Graphics/Components/Cameras/Camera.cs:193-199 | the inherited Update saves the previous view and projection before the chase camera's own matrix update |
| Cameras.ChaseCamera.Reset | MeteorEngine/MeteorEngine/Graphics/Components/Cameras/ChaseCamera.cs:143-153 | the camera jumps to the desired position with no velocity and looks at the look-at point |
| Cameras.ChaseCamera.NoFollow | MeteorEngine/MeteorEngine/Graphics/Components/Cameras/ChaseCamera.cs:160-167 | the camera stays where it is, stops, and turns to look at the look-at point |
| Cameras.ChaseCamera.Update | MeteorEngine/MeteorEngine/Graphics/Components/Cameras/ChaseCamera.cs:174-185 | the camera moves one spring step toward the refreshed desired position, its velocity stays as it was, and it looks at the look-at point |
| Rendering.RenderTarget.constructor | MeteorEngine/MeteorEngine/Graphics/Components/RenderProfile.cs:147-148 | a new render target has the size, mipmap flag, formats and usage it was asked for and is not disposed |
| Rendering.RenderTarget.Dispose | MeteorEngine/MeteorEngine/Graphics/Components/RenderProfile.cs:171 | the target is disposed |
| Rendering.PassOutputsAreOwnTargets | MeteorEngine/MeteorEngine/Graphics/RenderEffects/SceneEffects/LightShader.cs:92-111 | every pass that publishes outputs publishes as many as its kind has, all of them among the targets its own constructor added; the depth-reconstruction and projected-shadow passes publish none |
| Rendering.NatToString | MeteorEngine/MeteorEngine/Graphics/RenderEffects/BaseRenderer.cs:121 | the decimal spelling of a number has at least one digit and has exactly one when the number is below ten |
| Rendering.NatToStringInjective | MeteorEngine/MeteorEngine/Graphics/RenderEffects/BaseRenderer.cs:121 | two numbers with the same decimal spelling are equal |
| Rendering.TargetKeyInjective | MeteorEngine/MeteorEngine/Graphics/RenderEffects/BaseRenderer.cs:121 | the input keys "target_i" and "target_j" are equal exactly when i and j are |
| Rendering.InputMapLookup | MeteorEngine/MeteorEngine/Graphics/RenderEffects/BaseRenderer.cs:118-122 | the key "target_i" is bound to the i-th target, as an input rendered by this pass |
| Rendering.InputMapKeys | MeteorEngine/MeteorEngine/Graphics/RenderEffects/BaseRenderer.cs:118-122 | every key of the input map is "target_i" for some target index i |
| Rendering.InputMapExactly | MeteorEngine/MeteorEngine/Graphics/RenderEffects/BaseRenderer.cs:118-122 | the input map binds exactly the keys target_0 to target_(n-1), each to its own target |
| Rendering.NextKeyAbsent | MeteorEngine/MeteorEngine/Graphics/RenderEffects/BaseRenderer.cs:118-122 | the key for the next index is not bound yet, so each Dictionary.Add of the loop succeeds |
| Rendering.BaseRenderer.constructor | MeteorEngine/MeteorEngine/Graphics/RenderEffects/BaseRenderer.cs:75-106 | a new pass has scene input on, no inputs, no scene or camera, the back buffer size, and a half pixel that is half of one pixel in each direction |
| Rendering.BaseRenderer.SetInputs | MeteorEngine/MeteorEngine/Graphics/RenderEffects/BaseRenderer.cs:112-123 | the input targets are stored; a null array leaves the input map as it was, otherwise the map becomes exactly the map binding "target_i" to the i-th target and nothing else; scene and camera are untouched |
| Rendering.BaseRenderer.SetSceneInputs | MeteorEngine/MeteorEngine/Graphics/RenderEffects/BaseRenderer.cs:129-135 | the scene and camera are stored and the targets and input map are set as in SetInputs |
| Rendering.BaseRenderer.SetOutputTo | MeteorEngine/MeteorEngine/Graphics/RenderEffects/BaseRenderer.cs:141-156 | the method finds an input exactly when the destination pass binds the source key, prefers this pass's own binding, and changes neither pass |
| Rendering.RegistryExactly | MeteorEngine/MeteorEngine/Graphics/Components/RenderProfile.cs:20-35 | every name in the factory's map names a registered pass type of that name from the assembly, and every registered type's name is in the map |
| Rendering.RegistryFindsEach | MeteorEngine/MeteorEngine/Graphics/Components/RenderProfile.cs:20-35 | with distinct names, every registered type is found under its own name |
| Rendering.EngineNamesDistinct | MeteorEngine/MeteorEngine/Graphics/Components/RenderProfile.cs:20-35 | the engine's pass types have distinct names, so registration cannot throw |
| Rendering.SceneNamesDistinct | MeteorEngine/MeteorEngine/Graphics/Components/RenderProfile.cs:20-35 | the scene pass types have distinct names |
| Rendering.PostProcessNamesDistinct | MeteorEngine/MeteorEngine/Graphics/Components/RenderProfile.cs:20-35 | the post-process pass types have distinct names |
| Rendering.NamesApart | MeteorEngine/MeteorEngine/Graphics/Components/RenderProfile.cs:20-35 | no scene pass shares a name with a post-process pass |
| Rendering.EngineRegistry | MeteorEngine/MeteorEngine/Graphics/Components/RenderProfile.cs:20-35 | every pass kind can be created from the engine's registry under its class name, and the abstract ShadowMapper is registered but cannot be created |
| Rendering.RendererFactory.constructor | MeteorEngine/MeteorEngine/Graphics/Components/RenderProfile.cs:18 | a new factory has an empty type map |
| Rendering.RendererFactory.RegisterTypes | MeteorEngine/MeteorEngine/Graphics/Components/RenderProfile.cs:20-35 | registration succeeds exactly when the registered types have distinct names, and then the map is the registry of those types; a repeated name fails with a duplicate key |
| Rendering.RendererFactory.Create | MeteorEngine/MeteorEngine/Graphics/Components/RenderProfile.cs:38-41 | an unknown name fails with key-not-found and an abstract type fails; otherwise a fresh pass of the registered kind is created, the profile gains exactly that pass's targets, and nothing else of the profile changes |
| Rendering.CreatePass | MeteorEngine/MeteorEngine/Graphics/Components/RenderProfile.cs:40 | a fresh pass of the given kind is built and the profile's target list grows by exactly the targets that kind adds, in order |
| Rendering.AddTargets | MeteorEngine/MeteorEngine/Graphics/Components/RenderProfile.cs:144-151 | a pass constructor's targets are appended to the profile, each fresh, live and made to its specification |
| Rendering.RenderProfile.constructor | MeteorEngine/MeteorEngine/Graphics/Components/RenderProfile.cs:90-104 | a new profile has no render tasks, no targets, no debug targets and no output, and uses the given factory |
| Rendering.RenderProfile.Initialize | MeteorEngine/MeteorEngine/Graphics/Components/RenderProfile.cs:110-116 | the debug and task target lists are emptied without disposing anything |
| Rendering.RenderProfile.AddRenderTask | MeteorEngine/MeteorEngine/Graphics/Components/RenderProfile.cs:123-127 | every task goes under the key "Test": the first one is added and returned, any later one fails with a duplicate key and changes nothing |
| Rendering.RenderProfile.AddRenderTargetWithUsage | MeteorEngine/MeteorEngine/Graphics/Components/RenderProfile.cs:144-151 | a fresh, live target of the given size, formats and usage, without mipmaps, is appended and returned |
| Rendering.RenderProfile.AddRenderTarget | MeteorEngine/MeteorEngine/Graphics/Components/RenderProfile.cs:133-138 | as AddRenderTargetWithUsage, with usage DiscardContents |
| Rendering.RenderProfile.DisposeRenderers | MeteorEngine/MeteorEngine/Graphics/Components/RenderProfile.cs:162-175 | every target the profile held is disposed and the target list is emptied |
| Profiles.EngineConstructsLightPrePass | MeteorEngine/MeteorEngine/Graphics/SampleRenderProfiles/LightPrePassRenderer.cs:59-68 | the engine's registry can create each of the ten passes the light pre-pass profile asks for by class name |
| Profiles.Produce | MeteorEngine/MeteorEngine/Graphics/SampleRenderProfiles/DeferredRenderer.cs:59-68 | a directly constructed pass is fresh, exposes the outputs of its kind, and is recorded as the producer of each of them, with earlier records kept |
| Profiles.ProduceNamed | MeteorEngine/MeteorEngine/Graphics/SampleRenderProfiles/LightPrePassRenderer.cs:59-68 | a pass created through the factory by its class name is fresh, exposes the outputs of its kind and is recorded as their producer, with earlier records kept |
| Profiles.LightPrePassPasses.Wire | MeteorEngine/MeteorEngine/Graphics/SampleRenderProfiles/LightPrePassRenderer.cs:80-89 | after the ten SetInputs calls the small G-buffer and forward passes draw the scene only, keeping their input maps, and every other pass holds exactly the input targets MapInputs names for it and the "target_i" map over them |
| Profiles.LightPrePassPasses.WireScene | MeteorEngine/MeteorEngine/Graphics/SampleRenderProfiles/LightPrePassRenderer.cs:80-84 | the first five calls bind the light pass to the small G-buffer, the composite to the forward colour, light map and ambient occlusion, and DLAA to the composite |
| Profiles.LightPrePassPasses.WireGBuffer | MeteorEngine/MeteorEngine/Graphics/SampleRenderProfiles/LightPrePassRenderer.cs:80-82 | the small G-buffer and the forward pass get no input targets, keep their input maps and see the scene; the light pass reads the small G-buffer |
| Profiles.LightPrePassPasses.WireComposite | MeteorEngine/MeteorEngine/Graphics/SampleRenderProfiles/LightPrePassRenderer.cs:83-84 | the composite reads the forward colour, the light map and SSAO's output; DLAA reads the composite |
| Profiles.LightPrePassPasses.WirePost | MeteorEngine/MeteorEngine/Graphics/SampleRenderProfiles/LightPrePassRenderer.cs:85-89 | the last five calls bind copy, blur, depth of field, SSAO and bloom |
| Profiles.LightPrePassPasses.WireCopy | MeteorEngine/MeteorEngine/Graphics/SampleRenderProfiles/LightPrePassRenderer.cs:85-87 | copy reads DLAA, blur reads the copy, depth of field reads DLAA, the copy and the G-buffer's depth |
| Profiles.LightPrePassPasses.WireLate | MeteorEngine/MeteorEngine/Graphics/SampleRenderProfiles/LightPrePassRenderer.cs:88-89 | SSAO reads the small G-buffer and sees the scene; bloom reads DLAA |
| Profiles.LightPrePassPasses.DrawFrame | MeteorEngine/MeteorEngine/Graphics/SampleRenderProfiles/LightPrePassRenderer.cs:100-122 | the passes run in the order forward, small G-buffer, lights, SSAO, composite, DLAA, bloom |
| Profiles.LightPrePassRenderer.constructor | MeteorEngine/MeteorEngine/Graphics/SampleRenderProfiles/LightPrePassRenderer.cs:48-49 | a new light pre-pass profile on a factory that can create its passes holds ten passes of the right classes with their outputs recorded, no debug targets and no output |
| Profiles.LightPrePassRenderer.Initialize | MeteorEngine/MeteorEngine/Graphics/SampleRenderProfiles/LightPrePassRenderer.cs:55-69 | the profile's lists are cleared and the ten passes are created anew through the factory |
| Profiles.LightPrePassRenderer.MapInputs | MeteorEngine/MeteorEngine/Graphics/SampleRenderProfiles/LightPrePassRenderer.cs:75-98 | every pass is wired as Wire states; wiring an already wired profile again leaves every pass's input targets and input map as they were; the debug list becomes the forward colour, the small G-buffer's first target and the light pass's first two targets; the profile's targets and output are untouched |
| Profiles.LightPrePassRenderer.Draw | MeteorEngine/MeteorEngine/Graphics/SampleRenderProfiles/LightPrePassRenderer.cs:100-123 | the seven passes run in the frame order and the profile shows bloom's first output |
| Profiles.LightPrePassRenderer.DrawRunsProducersFirst | MeteorEngine/MeteorEngine/Graphics/SampleRenderProfiles/LightPrePassRenderer.cs:80-122 | after MapInputs, every pass Draw runs reads only outputs of passes already run in the same frame |
| Profiles.CreateLightPrePassPasses | MeteorEngine/MeteorEngine/Graphics/SampleRenderProfiles/LightPrePassRenderer.cs:55-69 | the ten Create calls give passes of the right classes, each recorded as the producer of its outputs |
| Profiles.CreateScenePasses | MeteorEngine/MeteorEngine/Graphics/SampleRenderProfiles/LightPrePassRenderer.cs:59-63 | the first five Create calls give the small G-buffer, light, forward, composite and blur passes with their outputs recorded |
| Profiles.CreatePostPasses | MeteorEngine/MeteorEngine/Graphics/SampleRenderProfiles/LightPrePassRenderer.cs:64-68 | the last five Create calls give the copy, SSAO, depth of field, bloom and DLAA passes, keeping the earlier records |
| Profiles.DeferredPasses.Wire | MeteorEngine/MeteorEngine/Graphics/SampleRenderProfiles/DeferredRenderer.cs:80-88 | after the eight SetInputs calls the G-buffer draws the scene only, keeping its input map, and each of the other seven wired passes holds exactly the input targets MapInputs names for it and the "target_i" map over them |
| Profiles.DeferredPasses.WireLights | MeteorEngine/MeteorEngine/Graphics/SampleRenderProfiles/DeferredRenderer.cs:80-81 | the G-buffer gets no input targets, keeps its input map and sees the scene; the light pass reads the G-buffer |
| Profiles.DeferredPasses.WireComposite | MeteorEngine/MeteorEngine/Graphics/SampleRenderProfiles/DeferredRenderer.cs:82-83 | the composite reads the G-buffer's third target, the light map and SSAO's output; DLAA reads the composite |
| Profiles.DeferredPasses.WireCopies | MeteorEngine/MeteorEngine/Graphics/SampleRenderProfiles/DeferredRenderer.cs:84-85 | copy and blur both read DLAA |
| Profiles.DeferredPasses.WireLate | MeteorEngine/MeteorEngine/Graphics/SampleRenderProfiles/DeferredRenderer.cs:86-88 | SSAO reads the G-buffer's first two targets and the light pass's fourth and sees the scene; bloom reads the composite |
| Profiles.DeferredPasses.DrawFrame | MeteorEngine/MeteorEngine/Graphics/SampleRenderProfiles/DeferredRenderer.cs:99-114 | the passes run in the order G-buffer, lights, composite, DLAA, SSAO |
| Profiles.DeferredPasses.DrawFrameInDependencyOrder | MeteorEngine/MeteorEngine/Graphics/SampleRenderProfiles/DeferredRenderer.cs:99-114 | the corrected order runs SSAO before the composite: G-buffer, lights, SSAO, composite, DLAA |
| Profiles.DeferredRenderer.constructor | MeteorEngine/MeteorEngine/Graphics/SampleRenderProfiles/DeferredRenderer.cs:48-49 | a new deferred profile holds ten passes of the right classes with their outputs recorded, no debug targets and no output |
| Profiles.DeferredRenderer.Initialize | MeteorEngine/MeteorEngine/Graphics/SampleRenderProfiles/DeferredRenderer.cs:55-69 | the profile's lists are cleared and the ten passes are constructed anew |
| Profiles.DeferredRenderer.MapInputs | MeteorEngine/MeteorEngine/Graphics/SampleRenderProfiles/DeferredRenderer.cs:75-97 | the eight passes are wired as Wire states; wiring an already wired profile again leaves every pass's input targets and input map as they were; the debug list becomes the G-buffer's three targets and the light map; the profile's targets and output are untouched |
| Profiles.DeferredRenderer.Draw | MeteorEngine/MeteorEngine/Graphics/SampleRenderProfiles/DeferredRenderer.cs:99-115 | the five passes run in the source's order and the profile shows SSAO's first output |
| Profiles.DeferredRenderer.DrawReadsSsaoBeforeItRuns | MeteorEngine/MeteorEngine/Graphics/SampleRenderProfiles/DeferredRenderer.cs:82-114 | in the source's order the composite reads SSAO's output before SSAO has run in that frame, so it sees the previous frame's ambient occlusion |
| Profiles.DeferredRenderer.DrawInDependencyOrder | MeteorEngine/MeteorEngine/Graphics/SampleRenderProfiles/DeferredRenderer.cs:99-115 | the corrected draw runs the passes in dependency order and shows the same output |
| Profiles.DeferredRenderer.DependencyOrderRunsProducersFirst | MeteorEngine/MeteorEngine/Graphics/SampleRenderProfiles/DeferredRenderer.cs:80-115 | in the corrected order every pass reads only outputs of passes already run in the same frame |
| Profiles.CreateDeferredPasses | MeteorEngine/MeteorEngine/Graphics/SampleRenderProfiles/DeferredRenderer.cs:55-69 | the ten constructions give passes of the right classes, each recorded as the producer of its outputs |
| Profiles.CreateDeferredScenePasses | MeteorEngine/MeteorEngine/Graphics/SampleRenderProfiles/DeferredRenderer.cs:59-63 | the first five constructions give the G-buffer, light, forward, composite and depth of field passes with their outputs recorded |
| Profiles.CreateDeferredPostPasses | MeteorEngine/MeteorEngine/Graphics/SampleRenderProfiles/DeferredRenderer.cs:64-68 | the last five give the blur, copy, bloom, DLAA and SSAO passes, keeping the earlier records |
| Blurs.ComputeGaussian | MeteorEngine/MeteorEngine/Graphics/Helpers/GaussianBlur.cs:108-115 | the Gaussian weight of a tap is positive whenever the library's exponential and square root are |
| Blurs.GaussianPositive | MeteorEngine/MeteorEngine/Graphics/Helpers/GaussianBlur.cs:108-115 | the whole Gaussian curve used for the weights is positive |
| Blurs.TotalWeight | MeteorEngine/MeteorEngine/Graphics/Helpers/GaussianBlur.cs:66-78 | the running sum of the weights of a non-empty tap list is positive, so the normalising division is defined |
| Blurs.NormalizedWeights | MeteorEngine/MeteorEngine/Graphics/Helpers/GaussianBlur.cs:97-101 | normalising keeps one weight per tap |
| Blurs.NormalizedPrefixSum | MeteorEngine/MeteorEngine/Graphics/Helpers/GaussianBlur.cs:97-101 | the first m normalised weights add up to the first m raw weights over the total |
| Blurs.NormalizedWeightsSumToOne | MeteorEngine/MeteorEngine/Graphics/Helpers/GaussianBlur.cs:97-101 | the normalised weights always sum to one |
| Blurs.NormalizedWeightsKeepRatios | MeteorEngine/MeteorEngine/Graphics/Helpers/GaussianBlur.cs:97-101 | normalising keeps the ratio between any two weights |
| Blurs.TapPairsSymmetric | MeteorEngine/MeteorEngine/Graphics/Helpers/GaussianBlur.cs:61-95 | the centre tap has the curve's value at 0 and a zero offset; the two taps of pair i share the curve's value at i+1 and have opposite offsets |
| Blurs.PairOffsets | MeteorEngine/MeteorEngine/Graphics/Helpers/GaussianBlur.cs:88-94 | the taps of pair i sit at plus and minus (dx, dy, 1, 1) scaled by (2i + 1.5) over the downsize factor |
| Blurs.PairStep | MeteorEngine/MeteorEngine/Graphics/Helpers/GaussianBlur.cs:70-95 | one loop pass adds twice the pair's weight to the total and appends the pair's two weights and two offsets |
| Blurs.DownsizeFactor | MeteorEngine/MeteorEngine/Graphics/Helpers/GaussianBlur.cs:30 | the factor offsets are divided by is never below 0.0001, so the division is defined: it is the step, or 1 when the step is below 0.0001 |
| Blurs.GaussianBlur.constructor | MeteorEngine/MeteorEngine/Graphics/Helpers/GaussianBlur.cs:25-49 | a new blur holds, for both directions, the normalised Gaussian weights and the tap offsets for one texel of 1/(dx - sampleCount) horizontally and 1/(dy - sampleCount) vertically |
| Blurs.GaussianBlur.SetBlurEffectParameters | MeteorEngine/MeteorEngine/Graphics/Helpers/GaussianBlur.cs:56-102 | the call fails with an index out of range exactly when the sample count is even; otherwise the weights become the normalised Gaussian weights and the offsets the symmetric tap offsets |
| Blurs.GaussianBlur.FillTaps | MeteorEngine/MeteorEngine/Graphics/Helpers/GaussianBlur.cs:61-95 | the pair loop runs off the end of the arrays exactly when the sample count is even; otherwise it leaves the raw weights, their total and the offsets of every tap |
| Blurs.GaussianBlur.StorePair | MeteorEngine/MeteorEngine/Graphics/Helpers/GaussianBlur.cs:73-94 | pair i writes its two equal weights and its two opposite offsets after the first 2i+1 taps |
| Blurs.GaussianBlur.NormalizeWeights | MeteorEngine/MeteorEngine/Graphics/Helpers/GaussianBlur.cs:98-101 | the normalising loop divides every raw weight by the total, leaving the normalised weights |
| Quads.PlaceCornersOnlyMovesXY | MeteorEngine/MeteorEngine/Graphics/Components/QuadRenderer.cs:62-77 | placing the quad moves each corner's x and y to its corner of the rectangle and keeps its depth and texture coordinates |
| Quads.PlaceCornersIdempotent | MeteorEngine/MeteorEngine/Graphics/Components/QuadRenderer.cs:62-77 | placing the quad twice on the same rectangle is the same as placing it once |
| Quads.DepthPersists | MeteorEngine/MeteorEngine/Graphics/Components/QuadRenderer.cs:84-103 | a depth set by RenderAtDepth survives any later placement |
| Quads.FullScreenTextureMapping | MeteorEngine/MeteorEngine/Graphics/Components/QuadRenderer.cs:29-43 | on the full-screen rectangle every corner's texture coordinate maps clip space to texture space, with v flipped |
| Quads.ExtentsTextureMapping | MeteorEngine/MeteorEngine/Graphics/Components/QuadRenderer.cs:29-77 | on any rectangle from v1 to v2, each corner's texture coordinate is its position relative to the rectangle: u runs from 0 at v1.x to 1 at v2.x and v from 0 at the top edge v2.y to 1 at the bottom edge v1.y |
| Quads.QuadIndicesFormTwoTriangles | MeteorEngine/MeteorEngine/Graphics/Components/QuadRenderer.cs:45 | the six indices form two non-degenerate triangles over the four corners that share the diagonal 0-2 |
| Quads.QuadRenderComponent.constructor | MeteorEngine/MeteorEngine/Graphics/Components/QuadRenderer.cs:24-56 | a new quad holds the four initial vertices, the vertex buffer holds them too, and nothing has been drawn |
| Quads.QuadRenderComponent.PlaceVertices | MeteorEngine/MeteorEngine/Graphics/Components/QuadRenderer.cs:64-74 | the four corners move to the rectangle from v1 to v2 |
| Quads.QuadRenderComponent.Render | MeteorEngine/MeteorEngine/Graphics/Components/QuadRenderer.cs:62-78 | the corners move to the rectangle and one indexed draw of two triangles over them is issued; the vertex buffer is untouched |
| Quads.QuadRenderComponent.RenderAtDepth | MeteorEngine/MeteorEngine/Graphics/Components/QuadRenderer.cs:84-104 | the corners move to the rectangle and all four take the given depth before the draw |
| Quads.QuadRenderComponent.SetVertices | MeteorEngine/MeteorEngine/Graphics/Components/QuadRenderer.cs:106-123 | the corners move to the rectangle and the vertex buffer is loaded with them, without drawing |
| Statistics.RateOf | MeteorEngine/MeteorEngine/Graphics/RenderStats.cs:53 | the frame rate is infinite exactly for a zero-length frame and otherwise is 1000 over the frame's milliseconds |
| Statistics.CarryStaysInWindow | MeteorEngine/MeteorEngine/Graphics/RenderStats.cs:46-51 | within the half-second window, the accumulated time stays in the window and is reduced exactly when it passes half a second |
| Statistics.CarryLongFrame | MeteorEngine/MeteorEngine/Graphics/RenderStats.cs:46-54 | after a frame longer than a second, the single subtraction still leaves more than half a second accumulated |
| Statistics.RenderStats.constructor | MeteorEngine/MeteorEngine/Graphics/RenderStats.cs:30-33 | new statistics start at zero frames, zero frame rate and zero times |
| Statistics.RenderStats.Update | MeteorEngine/MeteorEngine/Graphics/RenderStats.cs:40-55 | the GPU time is the reading, both times accumulate, and when more than half a second has passed the window moves on, the counter resets and the rate comes from the last frame; otherwise counter and rate stay |
| Statistics.RenderStats.Finish | MeteorEngine/MeteorEngine/Graphics/RenderStats.cs:57-64 | the frame counter and the total frame count grow by one and nothing else changes |
| ShadowMapping.DetailStepsKeepLevel | MeteorEngine/MeteorEngine/Graphics/RenderEffects/SceneEffects/ShadowMapper.cs:44-72 | stepping the detail up or down keeps the texture size a power of two between 128 and 4096, never shrinks it going up and never grows it going down |
| ShadowMapping.InitialSizeIsDetailLevel | MeteorEngine/MeteorEngine/Graphics/RenderEffects/SceneEffects/ExpShadowMapper.cs:16 | the initial size 1024 is such a detail level and both bounds are powers of two |
| ShadowMapping.DecreaseUndoesIncrease | MeteorEngine/MeteorEngine/Graphics/RenderEffects/SceneEffects/ShadowMapper.cs:44-72 | stepping down after stepping up gives the size back exactly when it was strictly between 64 and 4096, or zero |
| ShadowMapping.IncreaseUndoesDecrease | MeteorEngine/MeteorEngine/Graphics/RenderEffects/SceneEffects/ShadowMapper.cs:44-72 | stepping up after stepping down gives the size back exactly when it was even and strictly between 128 and 8192, or zero |
| ShadowMapping.NewBlur | MeteorEngine/MeteorEngine/Graphics/RenderEffects/SceneEffects/ShadowMapper.cs:56 | the new blur is fresh and set up for the given texture size |
| ShadowMapping.ShadowMapper.Exp | MeteorEngine/MeteorEngine/Graphics/RenderEffects/SceneEffects/ExpShadowMapper.cs:12-46 | the exponential shadow mapper starts at size 1024 with two depth maps taken from the profile's newly added targets and a blur for that size |
| ShadowMapping.ShadowMapper.PS | MeteorEngine/MeteorEngine/Graphics/RenderEffects/SceneEffects/PSShadowMapper.cs:12-37 | the parallel-split shadow mapper starts at size 1024 with four depth maps, the profile's last added targets, and no blur |
| ShadowMapping.ShadowMapper.IncreaseDetail | MeteorEngine/MeteorEngine/Graphics/RenderEffects/SceneEffects/ShadowMapper.cs:44-57 | the size steps up, the two first depth maps are disposed and replaced by fresh maps of the new size, the others are kept, and a fresh blur for the new size is built |
| ShadowMapping.ShadowMapper.DecreaseDetail | MeteorEngine/MeteorEngine/Graphics/RenderEffects/SceneEffects/ShadowMapper.cs:59-72 | the size steps down, with the same replacement of the first two depth maps and of the blur |
| ShadowMapping.ShadowMapper.Rebuild | MeteorEngine/MeteorEngine/Graphics/RenderEffects/SceneEffects/ShadowMapper.cs:48-56 | at an unchanged size, the first two depth maps are disposed and replaced by fresh ones of that size and the blur is rebuilt |
| LightShading.Capped | MeteorEngine/MeteorEngine/Graphics/RenderEffects/SceneEffects/LightShader.cs:265-339 | a light handles at most 64 meshes and never more than the scene orders: all of them, or exactly 64 |
| LightShading.TileInsideAtlas | MeteorEngine/MeteorEngine/Graphics/RenderEffects/SceneEffects/LightShader.cs:343-349 | each of the first 64 meshes draws into a 384-pixel tile that lies inside the 3072-pixel atlas |
| LightShading.TileBeyondCapLeavesAtlas | MeteorEngine/MeteorEngine/Graphics/RenderEffects/SceneEffects/LightShader.cs:343-349 | a mesh index of 64 or more would get a tile below the atlas, which is why the loops stop at 64 |
| LightShading.TilesDisjoint | MeteorEngine/MeteorEngine/Graphics/RenderEffects/SceneEffects/LightShader.cs:343-349 | the tiles of two different meshes do not overlap |
| LightShading.OffsetMatchesTile | MeteorEngine/MeteorEngine/Graphics/RenderEffects/SceneEffects/LightShader.cs:275-277 | the texture offset the projection stores for mesh j is the corner of the tile the depth pass drew mesh j into, scaled to the atlas |
| LightShading.BatchLoopsCover | MeteorEngine/MeteorEngine/Graphics/RenderEffects/SceneEffects/LightShader.cs:260-306 | the batch loop counts add up to the meshes handled; every batch has between 1 and 12 meshes and every batch but the last is full |
| LightShading.BatchStep | MeteorEngine/MeteorEngine/Graphics/RenderEffects/SceneEffects/LightShader.cs:273-293 | storing one more mesh keeps the batch state, and filling the twelfth entry flushes the full arrays and starts a new batch |
| LightShading.BatchEnd | MeteorEngine/MeteorEngine/Graphics/RenderEffects/SceneEffects/LightShader.cs:296-306 | flushing the partial batch at the end, when there is one, completes flushes that cover every mesh handled |
| LightShading.BoxEnclosesCorners | MeteorEngine/MeteorEngine/Graphics/RenderEffects/SceneEffects/LightShader.cs:389-399 | the light-space box encloses every rotated corner |
| LightShading.BoxIsSmallest | MeteorEngine/MeteorEngine/Graphics/RenderEffects/SceneEffects/LightShader.cs:391-399 | any box inside the float range that encloses the corners encloses the computed box, so it is the smallest |
| LightShading.BoxSizeNonNegative | MeteorEngine/MeteorEngine/Graphics/RenderEffects/SceneEffects/LightShader.cs:401-402 | the box size is non-negative in each coordinate |
| LightShading.BackPanelCentred | MeteorEngine/MeteorEngine/Graphics/RenderEffects/SceneEffects/LightShader.cs:403-407 | the light's position is centred on the box's back panel, at the box's minimum depth and inside the box |
| LightShading.Group | MeteorEngine/MeteorEngine/Graphics/RenderEffects/SceneEffects/LightShader.cs:494-503 | a group never has more lights than are visible |
| LightShading.GroupsPartition | MeteorEngine/MeteorEngine/Graphics/RenderEffects/SceneEffects/LightShader.cs:477-505 | every visible light is in exactly one of the inner and outer groups: the group sizes add up to the visible lights and together they hold exactly the visible lights' instances |
| LightShading.AsWrittenUploadsStaleSlot | MeteorEngine/MeteorEngine/Graphics/RenderEffects/SceneEffects/LightShader.cs:496-531 | with an outer light followed by an inner light, the source's upload of the inner group sends slot 0, which holds a stale entry instead of the inner light |
| LightShading.FirstFailureKept | MeteorEngine/MeteorEngine/Graphics/RenderEffects/SceneEffects/LightShader.cs:263-269 | once a mesh lookup has failed, later meshes do not change which failure is reported |
| LightShading.FirstFailureExtend | MeteorEngine/MeteorEngine/Graphics/RenderEffects/SceneEffects/LightShader.cs:263-269 | when no earlier lookup failed, the outcome after one more mesh is that mesh's own lookup outcome |
| LightShading.FirstFailureAt | MeteorEngine/MeteorEngine/Graphics/RenderEffects/SceneEffects/LightShader.cs:263-269 | the first failing mesh decides the outcome of every longer prefix |
| LightShading.FittedBoxesAt | MeteorEngine/MeteorEngine/Graphics/RenderEffects/SceneEffects/LightShader.cs:270 | the k-th fitted box is the box of the k-th ordered mesh, after its model's transform |
| LightShading.FittedBoxesAll | MeteorEngine/MeteorEngine/Graphics/RenderEffects/SceneEffects/LightShader.cs:270 | there is one fitted box per ordered mesh, each the box of its mesh |
| LightShading.ViewProjs | MeteorEngine/MeteorEngine/Graphics/RenderEffects/SceneEffects/LightShader.cs:272-273 | every light matrix is the view times projection fitted to its mesh's box |
| LightShading.CastingMembers | MeteorEngine/MeteorEngine/Graphics/RenderEffects/SceneEffects/LightShader.cs:253-255 | the lights that get shadows are exactly the directional lights that cast shadows |
| LightShading.CastingStep | MeteorEngine/MeteorEngine/Graphics/RenderEffects/SceneEffects/LightShader.cs:319-321 | one more directional light adds itself to the casting lights exactly when it casts shadows |
| LightShading.LightAtlasesAppend | MeteorEngine/MeteorEngine/Graphics/RenderEffects/SceneEffects/LightShader.cs:319-368 | the atlas of one more casting light extends the atlases of the lights before it |
| LightShading.LightFlushesAppend | MeteorEngine/MeteorEngine/Graphics/RenderEffects/SceneEffects/LightShader.cs:253-310 | the flushes of one more casting light extend the flushes of the lights before it |
| LightShading.StaticLookupsCoverProjected | MeteorEngine/MeteorEngine/Graphics/RenderEffects/SceneEffects/LightShader.cs:269-360 | when every shadow-map lookup through the static models succeeds, every projection lookup through Scene.Model succeeds too |
| LightShading.ScatterStep | MeteorEngine/MeteorEngine/Graphics/RenderEffects/SceneEffects/LightShader.cs:496-501 | visiting light i writes its instance into slot i of its own group's array only; every other slot is kept |
| LightShading.GroupStep | MeteorEngine/MeteorEngine/Graphics/RenderEffects/SceneEffects/LightShader.cs:494-503 | visiting light i appends its instance to its own group only |
| LightShading.GroupPrefix | MeteorEngine/MeteorEngine/Graphics/RenderEffects/SceneEffects/LightShader.cs:477-505 | the group of a prefix of the visible lights is never larger than the group of all of them |
| LightShading.GetCorners | MeteorEngine/MeteorEngine/Graphics/RenderEffects/SceneEffects/LightShader.cs:270 | the first eight entries become the box's eight corners and the rest of the array is kept |
| LightShading.CreateLightViewProjMatrix | MeteorEngine/MeteorEngine/Graphics/RenderEffects/SceneEffects/LightShader.cs:377-420 | the corners are rotated into light space in place, and the light camera's view and projection become the ones fitted to the rotated corners |
| LightShading.LightShader.constructor | MeteorEngine/MeteorEngine/Graphics/RenderEffects/SceneEffects/LightShader.cs:89-137 | a new lighting pass has a light camera sized for 384-pixel tiles, twelve-entry batch arrays, empty 1000-slot point-light arrays, and has drawn nothing |
| LightShading.LightShader.Draw | MeteorEngine/MeteorEngine/Graphics/RenderEffects/SceneEffects/LightShader.cs:143-176 | without input targets nothing runs; with fewer than two input targets the frame never completes, and if priority ordering succeeds it fails right after with an index out of range, as SetCommonParameters reads the second target; otherwise the stages that ran are a prefix of priority ordering, shadow maps, projected shadows, directional lights and, when there are visible lights, point lights; once ordering succeeds the ordered meshes stay in priority order; when none fails all of them ran, the ordered meshes are in priority order, each recorded shadow box is the box the matching ordered mesh's model held when Draw began, for the first 64 ordered meshes, every casting light has its atlas and its flushes over those boxes, one quad is drawn per directional light, the scene's visible count is the number of meshes culling against the camera's frustum keeps with every model at the world matrix it had when Draw began, and visible plus culled is the scene's total mesh count, and the point-light arrays and drawn groups are those of DrawPointLights (or unchanged without visible lights) |
| LightShading.LightShader.RunStages | MeteorEngine/MeteorEngine/Graphics/RenderEffects/SceneEffects/LightShader.cs:150-171 | the stages run in that order and stop at the first failure, with fewer than two targets an index out of range right after a successful ordering, and the ordered meshes are in priority order once ordering has run; when none fails the ordered meshes are in priority order, the shadow boxes are the first 64 ordered meshes' boxes as they stood before the stages ran, the shadow and light results are those Draw states, and the visible and culled counts are those of culling the recorded scene against the frustum |
| LightShading.LightShader.OrderedStages | MeteorEngine/MeteorEngine/Graphics/RenderEffects/SceneEffects/LightShader.cs:157-171 | after priority ordering, the stages that ran are a non-empty prefix of the stage list and stop at the first failing stage; the ordered meshes stay as they were and the shadow boxes become the given fitted boxes; on success the shadow and light results hold and the visible and culled counts are those of culling the recorded scene |
| LightShading.LightShader.ShadowStages | MeteorEngine/MeteorEngine/Graphics/RenderEffects/SceneEffects/LightShader.cs:157-158 | the shadow-map stage runs first and the projection stage only after it succeeded; the shadow boxes become the fitted boxes of the first 64 ordered meshes, the ordered meshes, the registries and every model's world matrix stay as they were, and on success every casting light has its atlas and its flushes over those boxes |
| LightShading.LightShader.LightStages | MeteorEngine/MeteorEngine/Graphics/RenderEffects/SceneEffects/LightShader.cs:166-171 | the directional lights are drawn, one quad each, after the models are culled against the camera's frustum: the visible count is what culling keeps of the recorded scene and visible plus culled is its mesh count; the point lights are drawn only when there are visible lights, only that stage can fail, and on success the arrays and groups are those DrawPointLights states |
| LightShading.LightShader.OrderMeshes | MeteorEngine/MeteorEngine/Graphics/RenderEffects/SceneEffects/LightShader.cs:152 | ordering the meshes by priority, when it succeeds, keeps the scene well formed and leaves the ordered meshes in priority order; the registries, every model's world matrix and the box each ordered mesh is fitted to stay as they were |
| LightShading.LightShader.PriorityOrderStage | MeteorEngine/MeteorEngine/Graphics/RenderEffects/SceneEffects/LightShader.cs:152 | IgnoreCulling as the frame calls it: on success the scene is well formed again and its ordered meshes are in priority order |
| LightShading.SetCommonParameters | MeteorEngine/MeteorEngine/Graphics/RenderEffects/SceneEffects/LightShader.cs:185-197 | binding the normal and depth maps succeeds exactly when there are at least two input targets, and otherwise fails with an index out of range |
| LightShading.LightShader.ShadowMapStage | MeteorEngine/MeteorEngine/Graphics/RenderEffects/SceneEffects/LightShader.cs:157 | the fitted boxes of the first 64 ordered meshes are recorded, one per mesh, and when the stage succeeds every casting light has its atlas drawn from them |
| LightShading.LightShader.ProjectedShadowStage | MeteorEngine/MeteorEngine/Graphics/RenderEffects/SceneEffects/LightShader.cs:158 | given the recorded fitted boxes, the projection stage, when it succeeds, leaves one flush list per casting light covering those boxes' matrices |
| LightShading.LightShader.DirectionalStage | MeteorEngine/MeteorEngine/Graphics/RenderEffects/SceneEffects/LightShader.cs:166 | the directional-light stage keeps the scene well formed, draws one quad per directional light and culls the models: the visible count is what culling keeps of the recorded scene and visible plus culled is its mesh count, with the lights, the ordered meshes and the light arrays untouched |
| LightShading.LightShader.DrawDirectionalLights | MeteorEngine/MeteorEngine/Graphics/RenderEffects/SceneEffects/LightShader.cs:201-223 | the meshes are culled against the camera, so the visible count is the meshes in view and visible plus culled is every mesh, and one full-screen quad is drawn per directional light |
| LightShading.LightShader.DrawPointLights | MeteorEngine/MeteorEngine/Graphics/RenderEffects/SceneEffects/LightShader.cs:440-518 | the call fails with an index out of range exactly when the scene has no point lights or more than 1000 are visible; otherwise each visible light is written at its own visit index in its group's array, the intensity is the first light's, and the groups' uploads take the first innerTotal and outerTotal slots of the arrays |
| LightShading.LightShader.SortLight | MeteorEngine/MeteorEngine/Graphics/RenderEffects/SceneEffects/LightShader.cs:477-505 | one pass of the light loop keeps each array equal to its group scattered at the lights' own indices and the counts equal to the group sizes |
| LightShading.LightShader.DrawLightGroups | MeteorEngine/MeteorEngine/Graphics/RenderEffects/SceneEffects/LightShader.cs:507-517 | the inner group is drawn with clockwise culling, then the outer group with counter-clockwise culling, and culling is left counter-clockwise |
| LightShading.LightShader.DrawLightGroup | MeteorEngine/MeteorEngine/Graphics/RenderEffects/SceneEffects/LightShader.cs:524-558 | an empty group draws nothing, a count past the array fails with an index out of range, and otherwise the first count instances are drawn with the current culling |
| LightShading.LightShader.DrawPointLightsCompacted | MeteorEngine/MeteorEngine/Graphics/RenderEffects/SceneEffects/LightShader.cs:440-518 | the corrected loop fails exactly when the scene has no point lights or a group outgrows its 1000 slots; otherwise each array starts with exactly its group, in visit order, and exactly those lights are drawn |
| LightShading.LightShader.CompactLight | MeteorEngine/MeteorEngine/Graphics/RenderEffects/SceneEffects/LightShader.cs:477-505 | one pass of the corrected loop appends the light to its own group's prefix, or fails when that group is full |
| LightShading.LightShader.DrawShadowMaps | MeteorEngine/MeteorEngine/Graphics/RenderEffects/SceneEffects/LightShader.cs:317-369 | with no casting light nothing can fail; otherwise the first failing mesh lookup is reported, and on success every casting light has drawn each of the first 64 ordered meshes into its own tile with the matrix fitted to its box |
| LightShading.LightShader.ShadowMapLight | MeteorEngine/MeteorEngine/Graphics/RenderEffects/SceneEffects/LightShader.cs:319-366 | one pass of the light loop: a casting light adds its atlas, one that casts no shadows adds nothing |
| LightShading.LightShader.OrientLightCamera | MeteorEngine/MeteorEngine/Graphics/RenderEffects/SceneEffects/LightShader.cs:323-329 | the light camera's target yaw and pitch come from the light's direction |
| LightShading.LightShader.DrawProjectedShadows | MeteorEngine/MeteorEngine/Graphics/RenderEffects/SceneEffects/LightShader.cs:239-311 | with no casting light nothing can fail; otherwise the first failing lookup through Scene.Model is reported, and on success every casting light's flushes cover the matrices of the first 64 ordered meshes |
| LightShading.LightShader.ProjectLight | MeteorEngine/MeteorEngine/Graphics/RenderEffects/SceneEffects/LightShader.cs:253-309 | one pass of the light loop: a casting light adds its flushes, one that casts no shadows adds nothing |
| LightShading.LightShader.DrawShadowMap | MeteorEngine/MeteorEngine/Graphics/RenderEffects/SceneEffects/LightShader.cs:323-364 | one light's depth pass turns the camera toward the light and, unless a lookup fails, draws each handled mesh into its tile with its fitted matrix |
| LightShading.LightShader.DrawMeshes | MeteorEngine/MeteorEngine/Graphics/RenderEffects/SceneEffects/LightShader.cs:335-364 | the mesh loop reports the first failing lookup and on success has drawn one tile per handled mesh |
| LightShading.LightShader.ShadowMapMesh | MeteorEngine/MeteorEngine/Graphics/RenderEffects/SceneEffects/LightShader.cs:337-363 | one pass of the mesh loop reports that mesh's lookup outcome and on success draws it into its tile |
| LightShading.LightShader.ProjectShadows | MeteorEngine/MeteorEngine/Graphics/RenderEffects/SceneEffects/LightShader.cs:260-306 | one light's projection reports the first failing lookup and on success leaves flushes that cover all the handled meshes' matrices |
| LightShading.LightShader.ProjectMeshes | MeteorEngine/MeteorEngine/Graphics/RenderEffects/SceneEffects/LightShader.cs:260-294 | the batching loop reports the first failing lookup and on success has flushed every full batch and holds the rest in the arrays |
| LightShading.LightShader.FlushRemainder | MeteorEngine/MeteorEngine/Graphics/RenderEffects/SceneEffects/LightShader.cs:296-306 | flushing what is left of the last batch completes the cover of every handled mesh |
| LightShading.LightShader.ProjectMesh | MeteorEngine/MeteorEngine/Graphics/RenderEffects/SceneEffects/LightShader.cs:263-293 | one pass of the batching loop reports that mesh's lookup outcome and on success keeps the batch state |
| LightShading.LightShader.BatchMesh | MeteorEngine/MeteorEngine/Graphics/RenderEffects/SceneEffects/LightShader.cs:273-293 | storing one mesh's matrix and offset, and flushing a full batch, keeps the batch state |
| LightShading.LightShader.StoreBatchEntry | MeteorEngine/MeteorEngine/Graphics/RenderEffects/SceneEffects/LightShader.cs:273-277 | batch entry b takes the mesh's light matrix and its tile offset, nothing else changes |
| LightShading.LightShader.StaticMesh | MeteorEngine/MeteorEngine/Graphics/RenderEffects/SceneEffects/LightShader.cs:352-356 | the depth pass's lookup through the static models reports its outcome and on success gives the matrix fitted to the mesh's box |
| LightShading.LightShader.FitMesh | MeteorEngine/MeteorEngine/Graphics/RenderEffects/SceneEffects/LightShader.cs:269-273 | the projection's lookup through Scene.Model reports its outcome and on success fits the light camera to the mesh's box |

## Left out

- GPU work: effects, render states, vertex and index buffers, and draw calls. A draw is recorded as a value (a tile, a flush, a quad, an instance list) or is dropped.
- Floating-point rounding, NaN and infinity: arithmetic is over exact reals.
- A division by zero that would give infinity or NaN in the source is excluded by a `requires`. The members concerned are listed below by name.
- `Math.Exp`, `Math.Sqrt`, `Math.Pow`, `Atan2` and the XNA matrix and frustum constructors are opaque. Where a proof needs a property of one of them (exp is positive, a length is not negative), the member requires it as an assumption about `Geometry.Library`.
- The content pipeline (MeteorContentProcessor), effect loading and textures are given as `ModelContent` values.
- The stopwatches and `GameTime` are parameters.
- Cameras.Camera.Initialize: requires a viewport height whose truncation is not zero. The source divides by it unguarded (Camera.cs:215), which gives an infinite or NaN aspect ratio.
- Cameras.Camera.UpdateNearFar: requires `viewAspect.y != 0.0`, for the same reason.
- Cameras.Camera.UpdateProjection: requires `viewAspect.y != 0.0`. `Geometry.Library.perspective` is a total function, so XNA's ArgumentOutOfRangeException for a near plane at or below zero or at or beyond the far plane is not modelled.
- Cameras.Camera.GetFrustumSplit: requires `numSplits != 0` and a non-zero near plane. The source divides by both unguarded (Camera.cs:113-123).
- Blurs.GaussianBlur.constructor: requires an odd sample count and `dx`, `dy` different from it. With an even count the source fails with an index out of range while filling the taps, which `GaussianBlur.SetBlurEffectParameters` and `GaussianBlur.FillTaps` do model. With `dx` equal to the count the source divides one by zero and gets infinity.
- ShadowMapping.NewBlur: the same requires as the blur constructor, since it builds one.
- ShadowMapping.ShadowMapper.Exp: requires an odd blur sample count, like NewBlur, because `Valid()` holds the blur's requirement.
- ShadowMapping.ShadowMapper.PS: requires an odd blur sample count too, although the PS mapper builds no blur until the first IncreaseDetail or DecreaseDetail; with an even count the source would fail only there.
- Blurs.ComputeGaussian: the curve is assumed positive through `ExpAndSqrtPositive`. It is not derived from real exponentials.
- Statistics.RenderStats.Update: `frameStepTime` is an unbounded integer. In the source, `frameStepTime += TotalGameTime` (RenderStats.cs:47) grows quadratically. At 60 frames per second it passes `TimeSpan.MaxValue` after about 48 hours, and from then on the addition throws an OverflowException.
- Models.InstancedModel.constructor: the try/catch around content loading (InstancedModel.cs:130-140), which retries under a second path, is not modelled. The content is given as a value. The blank checkerboard texture built on the fly for each part (InstancedModel.cs:182-199) is not modelled either, since the source never uses it. Only the part textures the content supplies are collected.
- SceneRendering.SortByPriority: the model sorts by insertion and is stable. `List.Sort` (SceneRenderer.cs:282) is an unstable introsort, so meshes of equal priority may end in another order. The contract states only the ordering and the permutation, which both sorts satisfy.
- The `ScreenPos` projection in the culling loop (SceneRenderer.cs:210-214): a homogeneous divide that nothing in the core reads.
- `InstancedModel.Rotate(float, float, float)` (InstancedModel.cs:344-353): an Euler-angle conversion through opaque trigonometry. Only `Rotate(Quaternion)` is modelled.
- `Scene.Update` (Scene.cs:226-247): skinned animation playback.
- `QuadRenderComponent.RenderInstanced` (QuadRenderer.cs:129-141): a pure draw call.
- `Camera.GetCorners` (Camera.cs:226-256): frustum corner extraction through the opaque frustum.
- `LightShader.DisposeResources` (LightShader.cs:564-567): the disposal of GPU resources.
- The Draw bodies of the passes other than the lighting pass: each is one entry in the profile's draw log.
- The render-task object behind `RenderProfile.AddRenderTask` is a parameter.
- DeferredRenderer.Passes.cs, MeteorDeferredRenderer.cs, Core.cs, DrawableComponent.cs, MeteorComponent.cs, FreeCamera.cs, DragCamera.cs, Skybox.cs and the post-processing shaders are not part of this model. Only the output counts of the shaders enter, through `Rendering.PassTargets`.
- Where the prose description and the code differ, the model follows the code:
  - `GetFrustumSplit` weights lambda on the logarithmic term, so lambda 1 is the logarithmic split.
  - `Dictionary.Add` throws on a duplicate key instead of overwriting it.
  - Stepping the shadow-map detail down after stepping it up restores the size also at size 0.


## Findings

| source | as written | input that shows it | evidently intended | confidence | as-written member | corrected member |
|---|---|---|---|---|---|---|
| MeteorEngine/MeteorEngine/Graphics/RenderEffects/SceneEffects/LightShader.cs:496-531 | each visible point light is written into slot `totalLights` (its index among all visible lights) of its group's array, but each group uploads only its first `innerTotal` or `outerTotal` slots | two visible lights: first an outer light, then an inner light. The inner light goes to slot 1 of the inner array, but the inner group uploads slot 0, which holds a stale entry | each group's array holds exactly its own lights from slot 0 on, in visit order | not executed | LightShading.AsWrittenUploadsStaleSlot, LightShading.LightShader.DrawPointLights | LightShading.LightShader.DrawPointLightsCompacted |
| MeteorEngine/MeteorEngine/Graphics/SampleRenderProfiles/DeferredRenderer.cs:82-114 | the composite pass reads SSAO's output (line 82), but `Draw` runs the composite (line 106) before SSAO (line 114) | any frame after MapInputs: the composite reads an SSAO target that has not been drawn in that frame | every pass runs after the passes whose outputs it reads | not executed | Profiles.DeferredRenderer.DrawReadsSsaoBeforeItRuns | Profiles.DeferredRenderer.DependencyOrderRunsProducersFirst, Profiles.DeferredRenderer.DrawInDependencyOrder |
