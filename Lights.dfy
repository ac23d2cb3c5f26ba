// Point and directional lights. A point light carries the instance data that the
// light pass uploads: a world matrix that scales a unit sphere by the radius and
// moves it to the light's position, and the light's packed colour.

module Lights {
  import opened Geometry

  newtype Byte = x: int | 0 <= x < 256

  /** An XNA Color: four bytes. */
  datatype Color = Color(r: Byte, g: Byte, b: Byte, a: Byte)

  const TwoTo32: nat := 0x1_0000_0000

  /** Color.PackedValue: red in the low byte, then green, blue and alpha. */
  function PackedValue(c: Color): (p: nat)
    ensures p < TwoTo32
  {
    c.r as nat + 0x100 * c.g as nat + 0x1_0000 * c.b as nat + 0x100_0000 * c.a as nat
  }

  /** Reads the four bytes back out of a packed colour. */
  function Unpack(p: nat): Color
    requires p < TwoTo32
  {
    Color((p % 0x100) as Byte, (p / 0x100 % 0x100) as Byte,
          (p / 0x1_0000 % 0x100) as Byte, (p / 0x100_0000) as Byte)
  }

  lemma UnpackPacked(c: Color)
    ensures Unpack(PackedValue(c)) == c
  {
    var p := PackedValue(c);
    var r, g, b, a := c.r as int, c.g as int, c.b as int, c.a as int;
    assert p == r + 0x100 * (g + 0x100 * (b + 0x100 * a));
    DivModByte(p, r, g + 0x100 * (b + 0x100 * a));
    DivModByte(p / 0x100, g, b + 0x100 * a);
    DivModByte(p / 0x1_0000, b, a);
    assert p / 0x1_0000 == p / 0x100 / 0x100;
    assert p / 0x100_0000 == p / 0x1_0000 / 0x100;
  }

  lemma DivModByte(p: int, low: int, high: int)
    requires 0 <= low < 0x100 && 0 <= high && p == low + 0x100 * high
    ensures p % 0x100 == low && p / 0x100 == high
  {
  }

  datatype PointLight = PointLight(
    position: Vec3,
    radius: real,
    intensity: real,
    color: Color,
    instance: InstanceData)

  /** The light's world matrix, Matrix.CreateScale(radius) * Matrix.CreateTranslation(position):
      row 4 holds the position and row 1 the radius along X. */
  function SphereWorldMatrix(radius: real, position: Vec3): (m: Matrix)
    ensures Translation(m) == position
    ensures Right(m) == Vec3(radius, 0.0, 0.0)
    ensures Dot(Right(m), Right(m)) == radius * radius
  {
    Mul(CreateScale(Vec3(radius, radius, radius)), CreateTranslation(position))
  }

  /** A light whose instance transform encodes its own radius and position. */
  predicate Encoded(l: PointLight) {
    l.instance.transform == SphereWorldMatrix(l.radius, l.position)
  }

  /** The PointLight constructor. */
  function NewPointLight(position: Vec3, color: Color, radius: real, intensity: real): (l: PointLight)
    ensures Encoded(l)
    ensures l.position == position && l.radius == radius
    ensures l.intensity == intensity && l.color == color
    ensures l.instance.color < TwoTo32 && Unpack(l.instance.color) == color
  {
    UnpackPacked(color);
    PointLight(position, radius, intensity, color,
               InstanceData(SphereWorldMatrix(radius, position), PackedValue(color)))
  }

  /** PointLight.Update: recomputes the transform from the current radius and position. */
  function Update(l: PointLight): (u: PointLight)
    ensures Encoded(u)
    ensures u.position == l.position && u.radius == l.radius
    ensures u.intensity == l.intensity && u.color == l.color
    ensures u.instance.color == l.instance.color
  {
    l.(instance := l.instance.(transform := SphereWorldMatrix(l.radius, l.position)))
  }

  /** Update leaves an encoded light as it is, so applying it twice is applying it once. */
  lemma UpdateIdempotent(l: PointLight)
    ensures Update(Update(l)) == Update(l)
    ensures Encoded(l) ==> Update(l) == l
  {
  }

  /** What culling reads back from an encoded light: its centre from row 4 and, as the
      squared length of row 1, the square of its radius. */
  lemma DecodeEncoded(l: PointLight)
    requires Encoded(l)
    ensures Translation(l.instance.transform) == l.position
    ensures Dot(Right(l.instance.transform), Right(l.instance.transform)) == l.radius * l.radius
  {
  }

  /** A directional light, as the DirectionLight struct. */
  datatype DirectionLight = DirectionLight(
    direction: Vec3,
    color: Color,
    intensity: real,
    castsShadows: bool)

  /** The DirectionLight constructor: full intensity, no shadows. */
  function NewDirectionLight(direction: Vec3, color: Color): (d: DirectionLight)
    ensures d.direction == direction && d.color == color
    ensures d.intensity == 1.0 && !d.castsShadows
  {
    DirectionLight(direction, color, 1.0, false)
  }
}
