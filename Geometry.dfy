// Vectors, row-major XNA matrices, boxes and spheres over the reals, and the
// library maths (square roots, powers, look-at and projection matrices, frustum
// tests) that the engine takes from XNA and that the model keeps opaque.

module Geometry {

  datatype Vec2 = Vec2(x: real, y: real)
  datatype Vec3 = Vec3(x: real, y: real, z: real)
  datatype Vec4 = Vec4(x: real, y: real, z: real, w: real)

  const Zero3 := Vec3(0.0, 0.0, 0.0)
  const One3 := Vec3(1.0, 1.0, 1.0)
  const Up3 := Vec3(0.0, 1.0, 0.0)

  /** The largest finite single-precision float, the sentinel the engine folds from. */
  const FloatMax: real := 340282346638528859811704183484516925440.0

  function Add(a: Vec3, b: Vec3): Vec3 { Vec3(a.x + b.x, a.y + b.y, a.z + b.z) }
  function Sub(a: Vec3, b: Vec3): Vec3 { Vec3(a.x - b.x, a.y - b.y, a.z - b.z) }
  function Scale(a: Vec3, k: real): Vec3 { Vec3(a.x * k, a.y * k, a.z * k) }
  function Neg4(a: Vec4): Vec4 { Vec4(-a.x, -a.y, -a.z, -a.w) }
  function Scale4(a: Vec4, k: real): Vec4 { Vec4(a.x * k, a.y * k, a.z * k, a.w * k) }
  function Dot(a: Vec3, b: Vec3): real { a.x * b.x + a.y * b.y + a.z * b.z }
  function Cross(a: Vec3, b: Vec3): Vec3 {
    Vec3(a.y * b.z - a.z * b.y, a.z * b.x - a.x * b.z, a.x * b.y - a.y * b.x)
  }

  function MinR(a: real, b: real): real { if a < b then a else b }
  function MaxR(a: real, b: real): real { if a > b then a else b }

  /** float.CompareTo: the sign of a - b, as -1, 0 or 1. */
  function CompareReals(a: real, b: real): (c: int)
    ensures c == -1 || c == 0 || c == 1
    ensures (c < 0 <==> a < b) && (c == 0 <==> a == b) && (c > 0 <==> a > b)
  {
    if a < b then -1 else if a > b then 1 else 0
  }

  /** Componentwise minimum and maximum, as Vector3.Min / Vector3.Max. */
  function Min3(a: Vec3, b: Vec3): Vec3 { Vec3(MinR(a.x, b.x), MinR(a.y, b.y), MinR(a.z, b.z)) }
  function Max3(a: Vec3, b: Vec3): Vec3 { Vec3(MaxR(a.x, b.x), MaxR(a.y, b.y), MaxR(a.z, b.z)) }
  function Min2(a: Vec2, b: Vec2): Vec2 { Vec2(MinR(a.x, b.x), MinR(a.y, b.y)) }
  function Max2(a: Vec2, b: Vec2): Vec2 { Vec2(MaxR(a.x, b.x), MaxR(a.y, b.y)) }

  /** Componentwise order on vectors. */
  predicate Leq3(a: Vec3, b: Vec3) { a.x <= b.x && a.y <= b.y && a.z <= b.z }
  predicate Leq2(a: Vec2, b: Vec2) { a.x <= b.x && a.y <= b.y }

  /** An XNA matrix: rows are indexed first, vectors multiply from the left. */
  datatype Matrix = Matrix(
    m11: real, m12: real, m13: real, m14: real,
    m21: real, m22: real, m23: real, m24: real,
    m31: real, m32: real, m33: real, m34: real,
    m41: real, m42: real, m43: real, m44: real)

  const Identity := Matrix(1.0, 0.0, 0.0, 0.0,
                           0.0, 1.0, 0.0, 0.0,
                           0.0, 0.0, 1.0, 0.0,
                           0.0, 0.0, 0.0, 1.0)

  const ZeroMatrix := Matrix(0.0, 0.0, 0.0, 0.0,
                             0.0, 0.0, 0.0, 0.0,
                             0.0, 0.0, 0.0, 0.0,
                             0.0, 0.0, 0.0, 0.0)

  function CreateScale(s: Vec3): Matrix {
    Matrix(s.x, 0.0, 0.0, 0.0,
           0.0, s.y, 0.0, 0.0,
           0.0, 0.0, s.z, 0.0,
           0.0, 0.0, 0.0, 1.0)
  }

  function CreateTranslation(p: Vec3): Matrix {
    Matrix(1.0, 0.0, 0.0, 0.0,
           0.0, 1.0, 0.0, 0.0,
           0.0, 0.0, 1.0, 0.0,
           p.x, p.y, p.z, 1.0)
  }

  datatype Quaternion = Quaternion(x: real, y: real, z: real, w: real)
  const IdentityQuaternion := Quaternion(0.0, 0.0, 0.0, 1.0)

  /** Matrix.CreateFromQuaternion. */
  function CreateFromQuaternion(q: Quaternion): Matrix {
    var xx, yy, zz := q.x * q.x, q.y * q.y, q.z * q.z;
    var xy, zw, zx := q.x * q.y, q.z * q.w, q.z * q.x;
    var yw, yz, xw := q.y * q.w, q.y * q.z, q.x * q.w;
    Matrix(1.0 - 2.0 * (yy + zz), 2.0 * (xy + zw), 2.0 * (zx - yw), 0.0,
           2.0 * (xy - zw), 1.0 - 2.0 * (zz + xx), 2.0 * (yz + xw), 0.0,
           2.0 * (zx + yw), 2.0 * (yz - xw), 1.0 - 2.0 * (yy + xx), 0.0,
           0.0, 0.0, 0.0, 1.0)
  }

  function Mul(a: Matrix, b: Matrix): Matrix {
    Matrix(
      a.m11 * b.m11 + a.m12 * b.m21 + a.m13 * b.m31 + a.m14 * b.m41,
      a.m11 * b.m12 + a.m12 * b.m22 + a.m13 * b.m32 + a.m14 * b.m42,
      a.m11 * b.m13 + a.m12 * b.m23 + a.m13 * b.m33 + a.m14 * b.m43,
      a.m11 * b.m14 + a.m12 * b.m24 + a.m13 * b.m34 + a.m14 * b.m44,
      a.m21 * b.m11 + a.m22 * b.m21 + a.m23 * b.m31 + a.m24 * b.m41,
      a.m21 * b.m12 + a.m22 * b.m22 + a.m23 * b.m32 + a.m24 * b.m42,
      a.m21 * b.m13 + a.m22 * b.m23 + a.m23 * b.m33 + a.m24 * b.m43,
      a.m21 * b.m14 + a.m22 * b.m24 + a.m23 * b.m34 + a.m24 * b.m44,
      a.m31 * b.m11 + a.m32 * b.m21 + a.m33 * b.m31 + a.m34 * b.m41,
      a.m31 * b.m12 + a.m32 * b.m22 + a.m33 * b.m32 + a.m34 * b.m42,
      a.m31 * b.m13 + a.m32 * b.m23 + a.m33 * b.m33 + a.m34 * b.m43,
      a.m31 * b.m14 + a.m32 * b.m24 + a.m33 * b.m34 + a.m34 * b.m44,
      a.m41 * b.m11 + a.m42 * b.m21 + a.m43 * b.m31 + a.m44 * b.m41,
      a.m41 * b.m12 + a.m42 * b.m22 + a.m43 * b.m32 + a.m44 * b.m42,
      a.m41 * b.m13 + a.m42 * b.m23 + a.m43 * b.m33 + a.m44 * b.m43,
      a.m41 * b.m14 + a.m42 * b.m24 + a.m43 * b.m34 + a.m44 * b.m44)
  }

  /** Vector3.Transform: the point v (w = 1) times m. */
  function Transform(v: Vec3, m: Matrix): Vec3 {
    Vec3(v.x * m.m11 + v.y * m.m21 + v.z * m.m31 + m.m41,
         v.x * m.m12 + v.y * m.m22 + v.z * m.m32 + m.m42,
         v.x * m.m13 + v.y * m.m23 + v.z * m.m33 + m.m43)
  }

  /** Vector3.TransformNormal: the direction v (w = 0) times m. */
  function TransformNormal(v: Vec3, m: Matrix): Vec3 {
    Vec3(v.x * m.m11 + v.y * m.m21 + v.z * m.m31,
         v.x * m.m12 + v.y * m.m22 + v.z * m.m32,
         v.x * m.m13 + v.y * m.m23 + v.z * m.m33)
  }

  /** Matrix.Translation: row 4. */
  function Translation(m: Matrix): Vec3 { Vec3(m.m41, m.m42, m.m43) }
  /** Matrix.Right: row 1. */
  function Right(m: Matrix): Vec3 { Vec3(m.m11, m.m12, m.m13) }
  /** Matrix.Up: row 2. */
  function UpOf(m: Matrix): Vec3 { Vec3(m.m21, m.m22, m.m23) }
  /** Matrix.Forward: row 3 negated. */
  function Forward(m: Matrix): Vec3 { Vec3(-m.m31, -m.m32, -m.m33) }

  /** The per-instance vertex data uploaded for instanced draws: a world matrix and a packed colour. */
  datatype InstanceData = InstanceData(transform: Matrix, color: nat)

  datatype BoundingBox = BoundingBox(min: Vec3, max: Vec3)
  datatype Sphere = Sphere(center: Vec3, radius: real)

  /** BoundingBox.GetCorners, in XNA's corner order. */
  function Corners(b: BoundingBox): (c: seq<Vec3>)
    ensures |c| == 8
  {
    [Vec3(b.min.x, b.max.y, b.max.z), Vec3(b.max.x, b.max.y, b.max.z),
     Vec3(b.max.x, b.min.y, b.max.z), Vec3(b.min.x, b.min.y, b.max.z),
     Vec3(b.min.x, b.max.y, b.min.z), Vec3(b.max.x, b.max.y, b.min.z),
     Vec3(b.max.x, b.min.y, b.min.z), Vec3(b.min.x, b.min.y, b.min.z)]
  }

  /** A box whose two corners are each carried through a transform. */
  function TransformBox(b: BoundingBox, m: Matrix): BoundingBox {
    BoundingBox(Transform(b.min, m), Transform(b.max, m))
  }

  datatype ContainmentType = Disjoint | Contains | Intersects
  datatype PlaneIntersectionType = Front | Back | Intersecting

  /** A view frustum, known only through XNA's containment and near-plane tests. */
  datatype Frustum = Frustum(
    containsBox: BoundingBox -> ContainmentType,
    containsSphere: Sphere -> ContainmentType,
    nearIntersects: Sphere -> PlaneIntersectionType)

  /** The XNA maths the engine calls and the model does not compute. */
  datatype Library = Library(
    length: Vec3 -> real,
    pow: (real, real) -> real,
    sqrt: real -> real,
    exp: real -> real,
    atan2: (real, real) -> real,
    normalize: Vec3 -> Vec3,
    lookAt: (Vec3, Vec3, Vec3) -> Matrix,
    orthographic: (real, real, real, real) -> Matrix,
    perspective: (real, real, real, real) -> Matrix,
    invert: Matrix -> Matrix,
    frustum: Matrix -> Frustum)

  /** Vector3.Distance. */
  function Distance(lib: Library, a: Vec3, b: Vec3): real { lib.length(Sub(a, b)) }

  /** What the model asks of the library: lengths are never negative. */
  ghost predicate LengthsNonNegative(lib: Library) {
    forall v :: lib.length(v) >= 0.0
  }
}

module Outcomes {
  /** The exceptions the engine's code paths can raise. */
  datatype Error =
    | DuplicateKey          // Dictionary.Add with a key already present
    | KeyNotFound           // Dictionary indexer with an absent key
    | IndexOutOfRange       // array or List index past its end
    | InvalidOperation      // an explicit InvalidOperationException
    | NullKey               // a null dictionary key
    | AbstractType          // Activator.CreateInstance on an abstract type
    | NullReference         // a member access through a null reference

  datatype Result<T> = Ok(value: T) | Err(error: Error)

  datatype Outcome = Done | Failed(error: Error)

  datatype Option<T> = None | Some(value: T)
}
