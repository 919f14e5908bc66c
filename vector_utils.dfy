/**
 * `ThreedUtils.compareVector3` and `compareVector3AndUpdate`: vector equality
 * and the "copy if different" step the transform controls use to detect which
 * of position, rotation and scale a drag changed.
 */
module VectorUtils {
  import opened Wrappers
  import opened ThreedModels

  /** A three.js `Vector3`: a mutable object, updated in place by `copy`. */
  class MutableVector3 {
    var x: real
    var y: real
    var z: real

    constructor(v: Vector3)
      ensures Value() == v
    {
      x, y, z := v.x, v.y, v.z;
    }

    function Value(): Vector3
      reads this
    {
      Vector3(x, y, z)
    }

    method Copy(v: Vector3)
      modifies this
      ensures Value() == v
    {
      x, y, z := v.x, v.y, v.z;
    }
  }

  /** `compareVector3`: false if either vector is undefined, else component-wise equality. */
  function CompareVector3(v1: Option<Vector3>, v2: Option<Vector3>): (r: bool)
    ensures (v1.None? || v2.None?) ==> !r
    ensures v1.Some? && v2.Some? ==>
              (r <==> v1.value.x == v2.value.x && v1.value.y == v2.value.y && v1.value.z == v2.value.z)
  {
    if v1.None? || v2.None? then false
    else v1.value.x == v2.value.x && v1.value.y == v2.value.y && v1.value.z == v2.value.z
  }

  /**
   * `compareVector3AndUpdate`: reports whether `v2` already equalled `v1`;
   * either way `v2` equals `v1` afterwards, so an immediate second call with
   * the same `v1` reports true.
   */
  method CompareVector3AndUpdate(v1: Vector3, v2: MutableVector3) returns (equal: bool)
    modifies v2
    ensures equal <==> old(v2.Value()) == v1
    ensures equal ==> v2.Value() == old(v2.Value())
    ensures v2.Value() == v1
    ensures CompareVector3(Some(v1), Some(v2.Value()))
  {
    if CompareVector3(Some(v1), Some(v2.Value())) {
      return true;
    }
    v2.Copy(v1);
    return false;
  }
}
