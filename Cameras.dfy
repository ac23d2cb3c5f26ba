// The camera: a position and a yaw/pitch target, the view and projection matrices with
// a snapshot of the previous frame's pair, the near and far clipping distances and the
// cascade-split distances between them. The chase camera follows a target on a spring.

module Cameras {
  import opened Geometry
  import opened Outcomes

  /** MathHelper.PiOver4, as the single-precision constant XNA stores. */
  const PiOver4: real := 0.7853982

  /** A float-to-int cast: truncation toward zero. */
  function Truncate(r: real): (n: int)
    ensures n as real <= r < n as real + 1.0 || n as real - 1.0 < r <= n as real
    ensures 0.0 <= r ==> 0 <= n
    ensures r < 0.0 ==> n <= 0
  {
    if r >= 0.0 then r.Floor else -((-r).Floor)
  }

  /** The logarithmic split distance of boundary i out of numSplits: near * (far/near)^(i/numSplits). */
  function LogSplit(lib: Library, near: real, far: real, i: int, numSplits: int): real
    requires near != 0.0 && numSplits != 0
  {
    near * lib.pow(far / near, i as real / numSplits as real)
  }

  /** The linear split distance of boundary i: near + (far - near) * i/numSplits. */
  function LinearSplit(near: real, far: real, i: int, numSplits: int): real
    requires numSplits != 0
  {
    near + (far - near) * (i as real / numSplits as real)
  }

  /** The distance of split boundary i: lambda parts logarithmic, (1 - lambda) parts linear. */
  function SplitDistance(lib: Library, near: real, far: real, i: int, numSplits: int, lambda: real): real
    requires near != 0.0 && numSplits != 0
  {
    LogSplit(lib, near, far, i, numSplits) * lambda + LinearSplit(near, far, i, numSplits) * (1.0 - lambda)
  }

  /** The split index GetFrustumSplit works with: never more than numSplits. */
  function ClampSplit(split: int, numSplits: int): (s: int)
    ensures s <= numSplits && s <= split
    ensures s == split || s == numSplits
  {
    if split > numSplits then numSplits else split
  }

  /** lambda = 1 is the purely logarithmic scheme and lambda = 0 the purely linear one. */
  lemma SplitBlendEnds(lib: Library, near: real, far: real, i: int, numSplits: int)
    requires near != 0.0 && numSplits != 0
    ensures SplitDistance(lib, near, far, i, numSplits, 1.0) == LogSplit(lib, near, far, i, numSplits)
    ensures SplitDistance(lib, near, far, i, numSplits, 0.0) == LinearSplit(near, far, i, numSplits)
  {
  }

  /** The linear scheme starts at the near plane, ends at the far plane and grows strictly
      from one boundary to the next when far lies beyond near. */
  lemma LinearSplitIncreasing(near: real, far: real, i: int, j: int, numSplits: int)
    requires 0 < numSplits && near < far && i < j
    ensures LinearSplit(near, far, 0, numSplits) == near
    ensures LinearSplit(near, far, numSplits, numSplits) == far
    ensures LinearSplit(near, far, i, numSplits) < LinearSplit(near, far, j, numSplits)
  {
    var n := numSplits as real;
    assert 0.0 / n == 0.0 && n / n == 1.0;
    var a, b := i as real / n, j as real / n;
    QuotientIncreasing(i as real, j as real, n);
    ScaledStepIncreases(near, far, a, b);
    LinearSplitAt(near, far, i, numSplits, a);
    LinearSplitAt(near, far, j, numSplits, b);
  }

  lemma LinearSplitAt(near: real, far: real, i: int, numSplits: int, a: real)
    requires numSplits != 0 && a == i as real / numSplits as real
    ensures LinearSplit(near, far, i, numSplits) == near + (far - near) * a
  {
  }

  lemma ScaledStepIncreases(near: real, far: real, a: real, b: real)
    requires near < far && a < b
    ensures near + (far - near) * a < near + (far - near) * b
  {
    PositiveProduct(far - near, b - a);
    assert (far - near) * b - (far - near) * a == (far - near) * (b - a);
  }

  lemma QuotientIncreasing(x: real, y: real, n: real)
    requires x < y && 0.0 < n
    ensures x / n < y / n
  {
    assert (y / n - x / n) * n == y - x;
    if y / n - x / n <= 0.0 {
      NonPositiveProduct(y / n - x / n, n);
    }
  }

  lemma NonPositiveProduct(x: real, y: real)
    requires x <= 0.0 && 0.0 < y
    ensures x * y <= 0.0
  {
  }

  lemma PositiveProduct(x: real, y: real)
    requires 0.0 < x && 0.0 < y
    ensures 0.0 < x * y
  {
  }

  /** The near boundary GetFrustumSplit stores for `split`. */
  function SplitNear(lib: Library, near: real, far: real, split: int, numSplits: int, lambda: real): real
    requires near != 0.0 && numSplits != 0
  {
    SplitDistance(lib, near, far, ClampSplit(split, numSplits), numSplits, lambda)
  }

  /** The far boundary GetFrustumSplit stores for `split`. */
  function SplitFar(lib: Library, near: real, far: real, split: int, numSplits: int, lambda: real): real
    requires near != 0.0 && numSplits != 0
  {
    SplitDistance(lib, near, far, ClampSplit(split, numSplits) + 1, numSplits, lambda)
  }

  /** The far boundary of split s is the near boundary of split s + 1, for every split before
      the last, so consecutive splits share their boundary. */
  lemma SplitsAbut(lib: Library, near: real, far: real, split: int, numSplits: int, lambda: real)
    requires near != 0.0 && numSplits != 0 && split < numSplits
    ensures SplitFar(lib, near, far, split, numSplits, lambda) == SplitNear(lib, near, far, split + 1, numSplits, lambda)
  {
  }

  class Camera {
    var cameraArc: real
    var targetArc: real
    var cameraRotation: real
    var targetRotation: real
    var worldMatrix: Matrix
    var view: Matrix
    var projection: Matrix
    var oldView: Matrix
    var oldProjection: Matrix
    var position: Vec3
    /** The matrix of cameraFrustum; None while the frustum is still null. */
    var frustumMatrix: Option<Matrix>
    var viewAspect: Vec2
    var fieldOfView: real
    var aspectRatio: real
    var viewCenter: Vec2
    var nearPlaneDistance: real
    var farPlaneDistance: real
    var nearSplitPlaneDistance: real
    var farSplitPlaneDistance: real

    /** The default constructor: four units up, yaw -90, clipping at 1 and 1000, the split
        distances at the clipping planes, every matrix and vector still zero and no frustum. */
    constructor ()
      ensures position == Vec3(0.0, 4.0, 0.0)
      ensures cameraArc == 0.0 && targetArc == 0.0 && cameraRotation == -90.0 && targetRotation == -90.0
      ensures nearPlaneDistance == 1.0 && farPlaneDistance == 1000.0
      ensures nearSplitPlaneDistance == nearPlaneDistance && farSplitPlaneDistance == farPlaneDistance
      ensures view == ZeroMatrix && projection == ZeroMatrix && worldMatrix == ZeroMatrix
      ensures oldView == ZeroMatrix && oldProjection == ZeroMatrix
      ensures frustumMatrix == None && viewAspect == Vec2(0.0, 0.0)
      ensures fieldOfView == 0.0 && aspectRatio == 0.0
    {
      cameraArc, targetArc := 0.0, 0.0;
      cameraRotation, targetRotation := -90.0, -90.0;
      worldMatrix, view, projection := ZeroMatrix, ZeroMatrix, ZeroMatrix;
      oldView, oldProjection := ZeroMatrix, ZeroMatrix;
      position := Vec3(0.0, 4.0, 0.0);
      frustumMatrix := None;
      viewAspect, viewCenter := Vec2(0.0, 0.0), Vec2(0.0, 0.0);
      fieldOfView, aspectRatio := 0.0, 0.0;
      nearPlaneDistance, farPlaneDistance := 1.0, 1000.0;
      nearSplitPlaneDistance, farSplitPlaneDistance := 1.0, 1000.0;
    }

    /** Camera(pos, orientation): placed at pos, facing yaw orientation.x and pitch
        orientation.y, both now and as the target. */
    constructor Placed(pos: Vec3, orientation: Vec2)
      ensures position == pos
      ensures cameraRotation == orientation.x && targetRotation == orientation.x
      ensures cameraArc == orientation.y && targetArc == orientation.y
      ensures nearPlaneDistance == 1.0 && farPlaneDistance == 1000.0
      ensures nearSplitPlaneDistance == nearPlaneDistance && farSplitPlaneDistance == farPlaneDistance
      ensures view == ZeroMatrix && projection == ZeroMatrix && frustumMatrix == None
    {
      cameraArc, targetArc := orientation.y, orientation.y;
      cameraRotation, targetRotation := orientation.x, orientation.x;
      worldMatrix, view, projection := ZeroMatrix, ZeroMatrix, ZeroMatrix;
      oldView, oldProjection := ZeroMatrix, ZeroMatrix;
      position := pos;
      frustumMatrix := None;
      viewAspect, viewCenter := Vec2(0.0, 0.0), Vec2(0.0, 0.0);
      fieldOfView, aspectRatio := 0.0, 0.0;
      nearPlaneDistance, farPlaneDistance := 1.0, 1000.0;
      nearSplitPlaneDistance, farSplitPlaneDistance := 1.0, 1000.0;
    }

    /** The frustum the culling tests use, built from the frustum matrix. */
    function Frustum(lib: Library): Frustum
      requires frustumMatrix.Some?
      reads this
    {
      lib.frustum(frustumMatrix.value)
    }

    /** The projection UpdateProjection builds from the current field of view, aspect and planes. */
    function PerspectiveOf(lib: Library, aspect: real): Matrix
      reads this
    {
      lib.perspective(fieldOfView, aspect, nearPlaneDistance, farPlaneDistance)
    }

    /** GetFrustumSplit: clamps the split to numSplits, stores the distances of the split's far
        and near boundaries and returns the near one pulled in by 5% with the far one. The C#
        method's lambda is optional and defaults to 0.75 when a caller leaves it out. */
    method GetFrustumSplit(lib: Library, split: int, numSplits: int, lambda: real) returns (r: Vec2)
      requires numSplits != 0 && nearPlaneDistance != 0.0
      modifies this`nearSplitPlaneDistance, this`farSplitPlaneDistance
      ensures farSplitPlaneDistance == SplitFar(lib, nearPlaneDistance, farPlaneDistance, split, numSplits, lambda)
      ensures nearSplitPlaneDistance == SplitNear(lib, nearPlaneDistance, farPlaneDistance, split, numSplits, lambda)
      ensures r == Vec2(nearSplitPlaneDistance * 0.95, farSplitPlaneDistance)
    {
      var farPlane := farPlaneDistance;
      var s := if split > numSplits then numSplits else split;
      assert s == ClampSplit(split, numSplits);

      var fLog := nearPlaneDistance * lib.pow(farPlane / nearPlaneDistance, (s + 1) as real / numSplits as real);
      var fLinear := nearPlaneDistance + (farPlane - nearPlaneDistance) * ((s + 1) as real / numSplits as real);
      farSplitPlaneDistance := fLog * lambda + fLinear * (1.0 - lambda);
      assert farSplitPlaneDistance == SplitDistance(lib, nearPlaneDistance, farPlane, s + 1, numSplits, lambda);

      fLog := nearPlaneDistance * lib.pow(farPlane / nearPlaneDistance, s as real / numSplits as real);
      fLinear := nearPlaneDistance + (farPlane - nearPlaneDistance) * (s as real / numSplits as real);
      nearSplitPlaneDistance := fLog * lambda + fLinear * (1.0 - lambda);
      assert nearSplitPlaneDistance == SplitDistance(lib, nearPlaneDistance, farPlane, s, numSplits, lambda);

      r := Vec2(nearSplitPlaneDistance * 0.95, farSplitPlaneDistance);
    }

    /** Initialize: the viewport size truncated to whole pixels, a quarter-pi field of view,
        an identity frustum and world matrix, the centre of the viewport, then the projection. */
    method Initialize(lib: Library, width: real, height: real)
      requires Truncate(height) != 0
      modifies this`viewAspect, this`fieldOfView, this`frustumMatrix, this`worldMatrix
      modifies this`viewCenter, this`aspectRatio, this`projection
      ensures viewAspect == Vec2(Truncate(width) as real, Truncate(height) as real)
      ensures fieldOfView == PiOver4
      ensures frustumMatrix == Some(Identity) && worldMatrix == Identity
      ensures viewCenter == Vec2(width / 2.0, height / 2.0)
      ensures aspectRatio == viewAspect.x / viewAspect.y
      ensures projection == PerspectiveOf(lib, aspectRatio)
    {
      viewAspect := Vec2(Truncate(width) as real, Truncate(height) as real);
      fieldOfView := PiOver4;
      frustumMatrix := Some(Identity);
      worldMatrix := Identity;
      viewCenter := Vec2(width / 2.0, height / 2.0);
      UpdateProjection(lib);
    }

    /** UpdateNearFar: new clipping distances, then a projection rebuilt with them. */
    method UpdateNearFar(lib: Library, clipPlanes: Vec2)
      requires viewAspect.y != 0.0
      modifies this`nearPlaneDistance, this`farPlaneDistance, this`aspectRatio, this`projection
      ensures nearPlaneDistance == clipPlanes.x && farPlaneDistance == clipPlanes.y
      ensures aspectRatio == viewAspect.x / viewAspect.y
      ensures projection == PerspectiveOf(lib, aspectRatio)
    {
      nearPlaneDistance := clipPlanes.x;
      farPlaneDistance := clipPlanes.y;
      UpdateProjection(lib);
    }

    /** UpdateProjection: the aspect ratio of the viewport and the perspective projection. */
    method UpdateProjection(lib: Library)
      requires viewAspect.y != 0.0
      modifies this`aspectRatio, this`projection
      ensures aspectRatio == viewAspect.x / viewAspect.y
      ensures projection == PerspectiveOf(lib, aspectRatio)
    {
      aspectRatio := viewAspect.x / viewAspect.y;
      projection := lib.perspective(fieldOfView, aspectRatio, nearPlaneDistance, farPlaneDistance);
    }

    /** SetLookAt: moves the camera; nothing else changes. */
    method SetLookAt(lookAt: Vec3)
      modifies this`position
      ensures position == lookAt
    {
      position := lookAt;
    }

    /** SetOrientation: the yaw and pitch to turn toward; nothing else changes. */
    method SetOrientation(orientation: Vec2)
      modifies this`targetRotation, this`targetArc
      ensures targetRotation == orientation.x && targetArc == orientation.y
    {
      targetRotation := orientation.x;
      targetArc := orientation.y;
    }

    /** The View setter. */
    method SetView(m: Matrix)
      modifies this`view
      ensures view == m
    {
      view := m;
    }

    /** The Projection setter. */
    method SetProjection(m: Matrix)
      modifies this`projection
      ensures projection == m
    {
      projection := m;
    }

    /** Update: keeps this frame's view and projection as the previous ones, then looks along
        the world matrix's forward axis and refits the frustum; a camera never initialized has
        no frustum and the refit throws. */
    method Update(lib: Library) returns (r: Outcome)
      modifies this`oldView, this`oldProjection, this`view, this`frustumMatrix
      ensures oldView == old(view) && oldProjection == old(projection)
      ensures view == lib.lookAt(position, Add(position, Forward(worldMatrix)), UpOf(worldMatrix))
      ensures r == Done <==> old(frustumMatrix).Some?
      ensures r == Done ==> frustumMatrix == Some(Mul(view, projection))
      ensures r != Done ==> r == Failed(NullReference) && frustumMatrix == None
    {
      oldView := view;
      oldProjection := projection;
      r := UpdateMatrices(lib);
    }

    /** UpdateMatrices for the base camera. */
    method UpdateMatrices(lib: Library) returns (r: Outcome)
      modifies this`view, this`frustumMatrix
      ensures view == lib.lookAt(position, Add(position, Forward(worldMatrix)), UpOf(worldMatrix))
      ensures r == Done <==> old(frustumMatrix).Some?
      ensures r == Done ==> frustumMatrix == Some(Mul(view, projection))
      ensures r != Done ==> r == Failed(NullReference) && frustumMatrix == None
    {
      view := lib.lookAt(position, Add(position, Forward(worldMatrix)), UpOf(worldMatrix));
      if frustumMatrix.None? {
        return Failed(NullReference);
      }
      frustumMatrix := Some(Mul(view, projection));
      r := Done;
    }
  }

  /** One spring step: the camera moves toward the desired position by elapsed * stiffness
      of the stretch between them. */
  function SpringStep(position: Vec3, desired: Vec3, elapsed: real, stiffness: real): Vec3 {
    var stretch := Sub(position, desired);
    Sub(position, Scale(Scale(stretch, elapsed), stiffness))
  }

  /** The step scales the offset from the desired position by 1 - elapsed * stiffness, so a
      step with elapsed * stiffness = 1 lands on the desired position. */
  lemma SpringStepScales(position: Vec3, desired: Vec3, elapsed: real, stiffness: real)
    ensures Sub(SpringStep(position, desired, elapsed, stiffness), desired) ==
            Scale(Sub(position, desired), 1.0 - elapsed * stiffness)
    ensures elapsed * stiffness == 1.0 ==> SpringStep(position, desired, elapsed, stiffness) == desired
  {
  }

  function PowR(r: real, n: nat): real {
    if n == 0 then 1.0 else r * PowR(r, n - 1)
  }

  /** n spring steps of equal length toward a fixed desired position. */
  function SpringSteps(position: Vec3, desired: Vec3, elapsed: real, stiffness: real, n: nat): Vec3 {
    if n == 0 then position
    else SpringStep(SpringSteps(position, desired, elapsed, stiffness, n - 1), desired, elapsed, stiffness)
  }

  /** After n equal steps the offset from the desired position is the first offset scaled by
      (1 - elapsed * stiffness)^n. */
  lemma {:induction false} SpringStepsDecay(position: Vec3, desired: Vec3, elapsed: real, stiffness: real, n: nat)
    ensures Sub(SpringSteps(position, desired, elapsed, stiffness, n), desired) ==
            Scale(Sub(position, desired), PowR(1.0 - elapsed * stiffness, n))
  {
    if n > 0 {
      var k := 1.0 - elapsed * stiffness;
      SpringStepsDecay(position, desired, elapsed, stiffness, n - 1);
      SpringStepScales(SpringSteps(position, desired, elapsed, stiffness, n - 1), desired, elapsed, stiffness);
      var d := Sub(position, desired);
      var p := PowR(k, n - 1);
      assert PowR(k, n) == k * p;
      ScaleTwice(d, p, k);
    }
  }

  lemma ScaleTwice(d: Vec3, p: real, k: real)
    ensures Scale(Scale(d, p), k) == Scale(d, k * p)
  {
    assert d.x * p * k == d.x * (k * p);
    assert d.y * p * k == d.y * (k * p);
    assert d.z * p * k == d.z * (k * p);
  }

  /** The object-to-world matrix of the chased object: the identity with its forward axis the
      chase direction, its up axis up and its right axis up x direction. */
  function ChaseTransform(up: Vec3, direction: Vec3): (m: Matrix)
    ensures Forward(m) == direction && UpOf(m) == up && Right(m) == Cross(up, direction)
    ensures Translation(m) == Zero3
  {
    var right := Cross(up, direction);
    Matrix(right.x, right.y, right.z, 0.0,
           up.x, up.y, up.z, 0.0,
           -direction.x, -direction.y, -direction.z, 0.0,
           0.0, 0.0, 0.0, 1.0)
  }

  /** A point given in the chased object's frame, carried to world space. */
  function ChaseWorldPoint(chasePosition: Vec3, chaseDirection: Vec3, up: Vec3, offset: Vec3): Vec3 {
    Add(chasePosition, TransformNormal(offset, ChaseTransform(up, chaseDirection)))
  }

  /** A camera that follows a target's position and heading, pulled toward a point behind it
      by a spring. The camera part is the embedded base camera. */
  class ChaseCamera {
    const cam: Camera
    var chasePosition: Vec3
    var chaseDirection: Vec3
    var up: Vec3
    var desiredPositionOffset: Vec3
    var desiredPosition: Vec3
    var lookAtOffset: Vec3
    var lookAt: Vec3
    var stiffness: real
    var damping: real
    var mass: real
    var velocity: Vec3

    /** The implicit constructor: a default camera, up along Y, the camera 30 above and 60
        behind the target looking 40.8 ahead of it, stiffness 10, damping 0, mass 5, at rest. */
    constructor ()
      ensures fresh(cam)
      ensures cam.position == Vec3(0.0, 4.0, 0.0) && cam.frustumMatrix == None
      ensures up == Up3 && desiredPositionOffset == Vec3(0.0, 30.0, 60.0)
      ensures lookAtOffset == Vec3(0.0, 0.0, -40.8)
      ensures stiffness == 10.0 && damping == 0.0 && mass == 5.0 && velocity == Zero3
      ensures chasePosition == Zero3 && chaseDirection == Zero3
    {
      cam := new Camera();
      chasePosition, chaseDirection := Zero3, Zero3;
      up := Up3;
      desiredPositionOffset := Vec3(0.0, 30.0, 60.0);
      desiredPosition := Zero3;
      lookAtOffset := Vec3(0.0, 0.0, -40.8);
      lookAt := Zero3;
      stiffness, damping, mass := 10.0, 0.0, 5.0;
      velocity := Zero3;
    }

    /** UpdateChaseTarget: the target's new position and heading; up is reset to Y. */
    method UpdateChaseTarget(position: Vec3, direction: Vec3)
      modifies this`chasePosition, this`chaseDirection, this`up
      ensures chasePosition == position && chaseDirection == direction && up == Up3
    {
      chasePosition := position;
      chaseDirection := direction;
      up := Up3;
    }

    /** UpdateWorldPositions: the desired camera position and the look-at point in world space. */
    method UpdateWorldPositions()
      modifies this`desiredPosition, this`lookAt
      ensures desiredPosition == ChaseWorldPoint(chasePosition, chaseDirection, up, desiredPositionOffset)
      ensures lookAt == ChaseWorldPoint(chasePosition, chaseDirection, up, lookAtOffset)
    {
      var transform := Identity;
      transform := transform.(m31 := -chaseDirection.x, m32 := -chaseDirection.y, m33 := -chaseDirection.z);
      transform := transform.(m21 := up.x, m22 := up.y, m23 := up.z);
      var right := Cross(up, chaseDirection);
      transform := transform.(m11 := right.x, m12 := right.y, m13 := right.z);
      desiredPosition := Add(chasePosition, TransformNormal(desiredPositionOffset, transform));
      lookAt := Add(chasePosition, TransformNormal(lookAtOffset, transform));
    }

    /** The DesiredPosition getter: recomputed from the current chase state first. */
    method DesiredPosition() returns (p: Vec3)
      modifies this`desiredPosition, this`lookAt
      ensures p == desiredPosition
      ensures p == ChaseWorldPoint(chasePosition, chaseDirection, up, desiredPositionOffset)
      ensures lookAt == ChaseWorldPoint(chasePosition, chaseDirection, up, lookAtOffset)
    {
      UpdateWorldPositions();
      p := desiredPosition;
    }

    /** The LookAt getter: recomputed from the current chase state first. */
    method LookAt() returns (p: Vec3)
      modifies this`desiredPosition, this`lookAt
      ensures p == lookAt
      ensures p == ChaseWorldPoint(chasePosition, chaseDirection, up, lookAtOffset)
      ensures desiredPosition == ChaseWorldPoint(chasePosition, chaseDirection, up, desiredPositionOffset)
    {
      UpdateWorldPositions();
      p := lookAt;
    }

    /** The chase camera's UpdateMatrices: refreshes the look-at point, resets the world matrix,
        looks from the camera's position at the look-at point and refits the frustum. */
    method UpdateMatrices(lib: Library) returns (r: Outcome)
      modifies this`desiredPosition, this`lookAt, cam`worldMatrix, cam`view, cam`frustumMatrix
      ensures desiredPosition == ChaseWorldPoint(chasePosition, chaseDirection, up, desiredPositionOffset)
      ensures lookAt == ChaseWorldPoint(chasePosition, chaseDirection, up, lookAtOffset)
      ensures cam.worldMatrix == Identity
      ensures cam.view == lib.lookAt(cam.position, lookAt, up)
      ensures r == Done <==> old(cam.frustumMatrix).Some?
      ensures r == Done ==> cam.frustumMatrix == Some(Mul(cam.view, cam.projection))
      ensures r != Done ==> r == Failed(NullReference) && cam.frustumMatrix == None
    {
      var target := LookAt();
      var direction := lib.normalize(Add(cam.position, target));
      cam.worldMatrix := Identity;
      cam.view := lib.lookAt(cam.position, lookAt, up);
      if cam.frustumMatrix.None? {
        return Failed(NullReference);
      }
      cam.frustumMatrix := Some(Mul(cam.view, cam.projection));
      r := Done;
    }

    /** Camera.Update run on a chase camera: the snapshot, then the chase camera's matrices. */
    method UpdateSnapshot(lib: Library) returns (r: Outcome)
      modifies this`desiredPosition, this`lookAt, cam`worldMatrix, cam`view, cam`frustumMatrix
      modifies cam`oldView, cam`oldProjection
      ensures cam.oldView == old(cam.view) && cam.oldProjection == old(cam.projection)
      ensures cam.view == lib.lookAt(cam.position, lookAt, up)
      ensures r == Done <==> old(cam.frustumMatrix).Some?
    {
      cam.oldView := cam.view;
      cam.oldProjection := cam.projection;
      r := UpdateMatrices(lib);
    }

    /** Reset: jumps to the desired position and stops. */
    method Reset(lib: Library) returns (r: Outcome)
      modifies this`desiredPosition, this`lookAt, this`velocity
      modifies cam`position, cam`worldMatrix, cam`view, cam`frustumMatrix
      ensures velocity == Zero3
      ensures desiredPosition == ChaseWorldPoint(chasePosition, chaseDirection, up, desiredPositionOffset)
      ensures cam.position == desiredPosition
      ensures cam.view == lib.lookAt(desiredPosition, lookAt, up)
      ensures r == Done <==> old(cam.frustumMatrix).Some?
    {
      UpdateWorldPositions();
      velocity := Zero3;
      cam.position := desiredPosition;
      r := UpdateMatrices(lib);
    }

    /** NoFollow: stops without moving; only the look-at point is refreshed. */
    method NoFollow(lib: Library) returns (r: Outcome)
      modifies this`desiredPosition, this`lookAt, this`velocity
      modifies cam`worldMatrix, cam`view, cam`frustumMatrix
      ensures velocity == Zero3 && cam.position == old(cam.position)
      ensures lookAt == ChaseWorldPoint(chasePosition, chaseDirection, up, lookAtOffset)
      ensures cam.view == lib.lookAt(cam.position, lookAt, up)
      ensures r == Done <==> old(cam.frustumMatrix).Some?
    {
      UpdateWorldPositions();
      velocity := Zero3;
      r := UpdateMatrices(lib);
    }

    /** Update(gameTime): one spring step of elapsed seconds toward the desired position,
        then new matrices. Velocity is not used. */
    method Update(lib: Library, elapsed: real) returns (r: Outcome)
      modifies this`desiredPosition, this`lookAt
      modifies cam`position, cam`worldMatrix, cam`view, cam`frustumMatrix
      ensures desiredPosition == ChaseWorldPoint(chasePosition, chaseDirection, up, desiredPositionOffset)
      ensures cam.position == SpringStep(old(cam.position), desiredPosition, elapsed, stiffness)
      ensures velocity == old(velocity)
      ensures cam.view == lib.lookAt(cam.position, lookAt, up)
      ensures r == Done <==> old(cam.frustumMatrix).Some?
    {
      UpdateWorldPositions();
      var stretch := Sub(cam.position, desiredPosition);
      cam.position := Sub(cam.position, Scale(Scale(stretch, elapsed), stiffness));
      r := UpdateMatrices(lib);
    }
  }
}
