// One placed copy of a model: its world transform, the instance data it uploads, and
// the distance to a viewer that sorting uses.

module Entities {
  import opened Geometry

  /** The colour every instance starts with. */
  const OpaqueWhite: nat := 0xffff_ffff

  class EntityInstance {
    var transform: Matrix
    var scale: Vec3
    var largestScale: real
    var instanceData: InstanceData
    var color: int
    var position: Vec3
    var distance: real

    /** The parameterless constructor: identity transform, unit scale, opaque white. */
    constructor ()
      ensures transform == Identity && scale == One3 && largestScale == 1.0
      ensures instanceData == InstanceData(ZeroMatrix, OpaqueWhite)
      ensures color == 0 && position == Zero3 && distance == 0.0
    {
      transform := Identity;
      scale := One3;
      largestScale := 1.0;
      instanceData := InstanceData(ZeroMatrix, OpaqueWhite);
      color := 0;
      position := Zero3;
      distance := 0.0;
    }

    /** The constructor from a transform: it sets neither scale nor largestScale,
        which keep their zero defaults. */
    constructor WithTransform(instanceTransform: Matrix)
      ensures transform == instanceTransform && scale == Zero3 && largestScale == 0.0
      ensures instanceData == InstanceData(ZeroMatrix, OpaqueWhite)
      ensures color == 0 && position == Zero3 && distance == 0.0
    {
      transform := instanceTransform;
      scale := Zero3;
      largestScale := 0.0;
      instanceData := InstanceData(ZeroMatrix, OpaqueWhite);
      color := 0;
      position := Zero3;
      distance := 0.0;
    }

    /** CompareTo: the negated comparison of distances, so that sorting puts the
        farthest instance first. */
    function CompareTo(other: EntityInstance): (c: int)
      reads this, other
      ensures c == -1 || c == 0 || c == 1
      ensures c < 0 <==> distance > other.distance
      ensures c == 0 <==> distance == other.distance
    {
      -CompareReals(distance, other.distance)
    }

    /** Update: the position follows the transform's translation. */
    method Update()
      modifies this`position
      ensures position == Translation(transform)
    {
      position := Translation(transform);
    }

    /** UpdateDistanceTo: the distance from the position to dest. */
    method UpdateDistanceTo(dest: Vec3, lib: Library)
      requires LengthsNonNegative(lib)
      modifies this`distance
      ensures distance == Distance(lib, position, dest) && distance >= 0.0
    {
      distance := Distance(lib, position, dest);
    }
  }

  /** CompareTo is antisymmetric, so it is a consistent ordering for a sort. */
  lemma CompareToAntisymmetric(a: EntityInstance, b: EntityInstance)
    ensures a.CompareTo(b) == -b.CompareTo(a)
  {
  }
}
