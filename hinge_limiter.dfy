/**
  The transform-based hinge limit of Assets/Scripts/TransformHingeLimiter2D.cs.
  The angle of a body relative to its reference body is measured on the
  folded `[0, 360)` angles, so accumulated full spins never count against
  the limit; the relative angle, measured in `(-180, 180]`, is clamped into the
  bounds, and a violation is either snapped back onto the bound so chosen or
  rewound toward it at a bounded speed.
 */
module HingeLimiter {
  import opened Wrappers
  import opened UnityMath
  import opened Bodies

  /**
    The world angle one tick steers toward: `None` while the relative angle lies
    within `[lowerAngle, upperAngle]`, else the reference angle plus the
    relative angle clamped into the bounds.
   */
  function LimitCorrection(referenceAngle: real, selfAngle: real, lowerAngle: real, upperAngle: real): (c: Option<real>)
    ensures c.None? <==> lowerAngle <= DeltaAngle(referenceAngle, selfAngle) <= upperAngle
    ensures c.Some? && DeltaAngle(referenceAngle, selfAngle) < lowerAngle ==> c.value == referenceAngle + lowerAngle
    ensures c.Some? && lowerAngle <= DeltaAngle(referenceAngle, selfAngle) ==> c.value == referenceAngle + upperAngle
    ensures c.Some? && lowerAngle <= upperAngle ==> lowerAngle <= c.value - referenceAngle <= upperAngle
  {
    var relativeAngle := DeltaAngle(referenceAngle, selfAngle);
    var clampedAngle := Clamp(relativeAngle, lowerAngle, upperAngle);
    if relativeAngle == clampedAngle then None
    else Some(referenceAngle + clampedAngle)
  }

  /** The angle `ApplyCorrection` writes: the target itself, or one rewind step from the current angle toward it. */
  function CorrectedAngle(hardClamp: bool, targetWorldAngle: real, currentWorldAngle: real, maxDelta: real): real
  {
    if hardClamp then targetWorldAngle
    else MoveTowardsAngle(currentWorldAngle, targetWorldAngle, maxDelta)
  }

  /** The correction only sees directions: spinning the body by whole turns changes nothing. */
  lemma CorrectionIgnoresTurns(referenceAngle: real, selfAngle: real, selfAngle': real, lowerAngle: real, upperAngle: real)
    requires Congruent(selfAngle, selfAngle')
    ensures LimitCorrection(referenceAngle, selfAngle, lowerAngle, upperAngle) ==
            LimitCorrection(referenceAngle, selfAngle', lowerAngle, upperAngle)
  {
    CongruentShift(selfAngle, selfAngle', referenceAngle);
    DeltaAngleCongruent(referenceAngle, selfAngle, referenceAngle, selfAngle');
  }

  /**
    With bounds inside `(-180, 180]`, a hard clamp settles in one tick: once the
    body has been turned to the corrected angle, the next tick measures it back
    inside the bounds and corrects nothing.
   */
  lemma HardClampSettles(referenceAngle: real, selfAngle: real, lowerAngle: real, upperAngle: real)
    requires -180.0 < lowerAngle <= upperAngle <= 180.0
    requires LimitCorrection(referenceAngle, selfAngle, lowerAngle, upperAngle).Some?
    ensures var t := LimitCorrection(referenceAngle, selfAngle, lowerAngle, upperAngle).value;
            LimitCorrection(referenceAngle, Repeat(t, 360.0), lowerAngle, upperAngle) == None
  {
    var t := LimitCorrection(referenceAngle, selfAngle, lowerAngle, upperAngle).value;
    var clamped := t - referenceAngle;
    var z := Repeat(t, 360.0);
    CongruentSym(t, z);
    CongruentShift(z, t, referenceAngle);
    assert (referenceAngle + clamped) - referenceAngle == t - referenceAngle;
    DeltaAngleCongruent(referenceAngle, z, referenceAngle, referenceAngle + clamped);
    DeltaAngleOfOffset(referenceAngle, clamped);
  }

  /**
    A rewind turns the body by at most one step and in the direction of the
    shortest turn to the target, without passing it; a target within one step
    is reached.
   */
  lemma RewindStepBounded(targetWorldAngle: real, currentWorldAngle: real, maxDelta: real)
    requires 0.0 <= maxDelta
    ensures var step := DeltaAngle(currentWorldAngle, CorrectedAngle(false, targetWorldAngle, currentWorldAngle, maxDelta));
            var d := DeltaAngle(currentWorldAngle, targetWorldAngle);
            && Abs(step) <= maxDelta
            && ((0.0 <= step <= d) || (d <= step <= 0.0))
    ensures Abs(DeltaAngle(currentWorldAngle, targetWorldAngle)) <= maxDelta ==>
              Congruent(CorrectedAngle(false, targetWorldAngle, currentWorldAngle, maxDelta), targetWorldAngle)
  {
    MoveTowardsAngleStep(currentWorldAngle, targetWorldAngle, maxDelta);
  }

  /**
    A joint 60 degrees past an upper bound of 90 snaps back onto the bound, which
    the next tick accepts. Against bounds `[0, 90]` a joint at 190 measures -170,
    below the range, so it snaps onto 0, the bound 170 degrees away, rather than
    onto 90, which is 100 degrees away the other way round.
   */
  lemma HardClampExample()
    ensures LimitCorrection(0.0, 150.0, -90.0, 90.0) == Some(90.0)
    ensures LimitCorrection(0.0, 90.0, -90.0, 90.0) == None
    ensures LimitCorrection(0.0, 190.0, 0.0, 90.0) == Some(0.0)
    ensures DeltaAngle(190.0, 0.0) == 170.0 && DeltaAngle(190.0, 90.0) == -100.0
  {
    DeltaAngleOfOffset(0.0, 150.0);
    DeltaAngleOfOffset(0.0, 90.0);
    DeltaAngleOfOffset(0.0, -170.0);
    DeltaAngleOfOffset(190.0, 170.0);
    DeltaAngleOfOffset(190.0, -100.0);
    assert 190.0 + 170.0 == 0.0 + 360.0;
  }

  class TransformHingeLimiter2D {
    /** The hinge whose built-in limits this component replaces. */
    const hinge: HingeJoint2D?
    const connectedBodyOverride: RigidBody2D?
    var useLimits: bool
    var lowerAngle: real
    var upperAngle: real
    const hardClamp: bool
    /** Degrees per second of a rewind. */
    const rewindSpeed: real
    const zeroOutAngularVelocity: bool
    /** The limited body. */
    const rb: RigidBody2D

    /** A limiter with the component's default settings. */
    constructor Default(rb: RigidBody2D, hinge: HingeJoint2D?, connectedBodyOverride: RigidBody2D?)
      ensures this.rb == rb && this.hinge == hinge && this.connectedBodyOverride == connectedBodyOverride
      ensures useLimits && lowerAngle == -90.0 && upperAngle == 90.0
      ensures hardClamp && rewindSpeed == 360.0 && zeroOutAngularVelocity
    {
      this.rb := rb;
      this.hinge := hinge;
      this.connectedBodyOverride := connectedBodyOverride;
      useLimits := true;
      lowerAngle := -90.0;
      upperAngle := 90.0;
      hardClamp := true;
      rewindSpeed := 360.0;
      zeroOutAngularVelocity := true;
    }

    /** A limiter with settings authored away from the defaults. */
    constructor (rb: RigidBody2D, hinge: HingeJoint2D?, connectedBodyOverride: RigidBody2D?,
                 useLimits: bool, lowerAngle: real, upperAngle: real,
                 hardClamp: bool, rewindSpeed: real, zeroOutAngularVelocity: bool)
      ensures this.rb == rb && this.hinge == hinge && this.connectedBodyOverride == connectedBodyOverride
      ensures this.useLimits == useLimits && this.lowerAngle == lowerAngle && this.upperAngle == upperAngle
      ensures this.hardClamp == hardClamp && this.rewindSpeed == rewindSpeed
      ensures this.zeroOutAngularVelocity == zeroOutAngularVelocity
    {
      this.rb := rb;
      this.hinge := hinge;
      this.connectedBodyOverride := connectedBodyOverride;
      this.useLimits := useLimits;
      this.lowerAngle := lowerAngle;
      this.upperAngle := upperAngle;
      this.hardClamp := hardClamp;
      this.rewindSpeed := rewindSpeed;
      this.zeroOutAngularVelocity := zeroOutAngularVelocity;
    }

    /** The body the relative angle is measured against: the override first, then the hinge's connected body, else none. */
    function ResolveReferenceTransform(): (r: RigidBody2D?)
      ensures connectedBodyOverride != null ==> r == connectedBodyOverride
      ensures connectedBodyOverride == null && hinge != null ==> r == hinge.connectedBody
      ensures connectedBodyOverride == null && hinge == null ==> r == null
    {
      if connectedBodyOverride != null then connectedBodyOverride
      else if hinge != null && hinge.connectedBody != null then hinge.connectedBody
      else null
    }

    /** The folded world angle of the reference body; a body pinned to the world measures against 0. */
    function ReferenceAngle(): (a: real)
      reads if ResolveReferenceTransform() != null then {ResolveReferenceTransform()} else {}
      ensures 0.0 <= a < 360.0
      ensures ResolveReferenceTransform() == null ==> a == 0.0
      ensures ResolveReferenceTransform() != null ==> Congruent(ResolveReferenceTransform().rotation, a)
    {
      var referenceTransform := ResolveReferenceTransform();
      if referenceTransform != null then referenceTransform.EulerZ() else 0.0
    }

    /**
      One physics tick. With limits off nothing changes. Otherwise a body found
      outside its bounds is turned to the corrected angle and, when configured,
      stopped; a body within its bounds is left alone.
     */
    method FixedUpdate(fixedDeltaTime: real)
      modifies rb`rotation, rb`angularVelocity
      ensures var c := LimitCorrection(old(ReferenceAngle()), old(rb.EulerZ()), lowerAngle, upperAngle);
              var corrects := useLimits && c.Some?;
              && rb.rotation == (if corrects then CorrectedAngle(hardClamp, c.value, old(rb.EulerZ()), rewindSpeed * fixedDeltaTime)
                                 else old(rb.rotation))
              && rb.angularVelocity == (if corrects && zeroOutAngularVelocity then 0.0 else old(rb.angularVelocity))
    {
      if !useLimits {
        return;
      }
      var referenceAngle := ReferenceAngle();
      var selfAngle := rb.EulerZ();
      var relativeAngle := DeltaAngle(referenceAngle, selfAngle);
      var clampedAngle := Clamp(relativeAngle, lowerAngle, upperAngle);
      if relativeAngle == clampedAngle {
        return;
      }
      var targetWorldAngle := referenceAngle + clampedAngle;
      ApplyCorrection(targetWorldAngle, selfAngle, fixedDeltaTime);
      if zeroOutAngularVelocity {
        rb.angularVelocity := 0.0;
      }
    }

    /** Turns the body to the target at once, or by one rewind step toward it. */
    method ApplyCorrection(targetWorldAngle: real, currentWorldAngle: real, fixedDeltaTime: real)
      modifies rb`rotation
      ensures rb.rotation == CorrectedAngle(hardClamp, targetWorldAngle, currentWorldAngle, rewindSpeed * fixedDeltaTime)
    {
      var newAngle := if hardClamp then targetWorldAngle
                      else MoveTowardsAngle(currentWorldAngle, targetWorldAngle, rewindSpeed * fixedDeltaTime);
      rb.rotation := newAngle;
    }

    method SetLimits(lower: real, upper: real)
      modifies this`lowerAngle, this`upperAngle
      ensures lowerAngle == lower && upperAngle == upper
    {
      lowerAngle := lower;
      upperAngle := upper;
    }

    method EnableLimits(enabled: bool)
      modifies this`useLimits
      ensures useLimits == enabled
    {
      useLimits := enabled;
    }
  }
}
