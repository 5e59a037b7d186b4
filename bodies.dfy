/**
  The physics-engine objects the ragdoll scripts read and write: a 2D rigid
  body and the hinge joint that attaches it to a connected body. Only the
  fields the scripts touch are modelled.
 */
module Bodies {
  import opened UnityMath

  class RigidBody2D {
    /** Accumulated rotation in degrees; unbounded, it grows with every full spin. */
    var rotation: real
    /** Degrees per second. */
    var angularVelocity: real
    /** Read by the scripts, never written. */
    const mass: real

    constructor (rotation: real, angularVelocity: real, mass: real)
      ensures this.rotation == rotation && this.angularVelocity == angularVelocity && this.mass == mass
    {
      this.rotation := rotation;
      this.angularVelocity := angularVelocity;
      this.mass := mass;
    }

    /** `transform.eulerAngles.z` of the body's object: its rotation folded into `[0, 360)`. */
    function EulerZ(): (z: real)
      reads this
      ensures 0.0 <= z < 360.0
      ensures Congruent(rotation, z)
    {
      Repeat(rotation, 360.0)
    }
  }

  class HingeJoint2D {
    /** The body the hinge anchors to; null for a hinge pinned to the world. */
    const connectedBody: RigidBody2D?

    constructor (connectedBody: RigidBody2D?)
      ensures this.connectedBody == connectedBody
    {
      this.connectedBody := connectedBody;
    }
  }
}
