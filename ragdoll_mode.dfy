/**
  The pose/ragdoll switch of Assets/Scripts/Ragdoll.cs. In pose mode the
  muscles hold the figure up and the transform limiters are off; in ragdoll
  mode ("activated") the muscles are off and the limiters keep the joints
  within their bounds. The figure's state is modelled on values first
  (`ModeState`), then as the class that writes the components in place.
 */
module RagdollMode {
  import opened Muscles
  import opened HingeLimiter
  import opened RagdollSets

  /** The ragdoll flag, each muscle's `musclesActive` and each limiter's `useLimits`, in list order. */
  datatype ModeState = ModeState(activated: bool, muscles: seq<bool>, limits: seq<bool>)

  /** `n` copies of `b`. */
  function Uniform(n: nat, b: bool): (s: seq<bool>)
    ensures |s| == n && forall i :: 0 <= i < n ==> s[i] == b
  {
    seq(n, _ => b)
  }

  /** The two modes: every muscle on and every limit off exactly when not activated, and the reverse. */
  ghost predicate Exclusive(s: ModeState)
  {
    && (forall i :: 0 <= i < |s.muscles| ==> s.muscles[i] == !s.activated)
    && (forall i :: 0 <= i < |s.limits| ==> s.limits[i] == s.activated)
  }

  /** `UpdateModeToggle(toggle)`: muscles set to `toggle`, limits to its negation, and the flag with them. */
  function Toggle(s: ModeState, toggle: bool): (r: ModeState)
    ensures |r.muscles| == |s.muscles| && |r.limits| == |s.limits|
    ensures r.activated == !toggle && Exclusive(r)
  {
    ModeState(!toggle, Uniform(|s.muscles|, toggle), Uniform(|s.limits|, !toggle))
  }

  /** `UpdateMode()`: the muscles take the old flag, the limits its negation, and the flag flips. */
  function Update(s: ModeState): (r: ModeState)
    ensures |r.muscles| == |s.muscles| && |r.limits| == |s.limits|
    ensures r.activated == !s.activated && Exclusive(r)
    ensures forall i :: 0 <= i < |r.muscles| ==> r.muscles[i] == s.activated
  {
    ModeState(!s.activated, Uniform(|s.muscles|, s.activated), Uniform(|s.limits|, !s.activated))
  }

  /** `UpdateMode()` is `UpdateModeToggle` with the current flag. */
  lemma UpdateIsToggleOfFlag(s: ModeState)
    ensures Update(s) == Toggle(s, s.activated)
  {
  }

  /** Switching twice restores the state exactly when the state was in one of the two modes. */
  lemma UpdateTwice(s: ModeState)
    ensures Update(Update(s)) == s <==> Exclusive(s)
  {
    var t := Update(Update(s));
    if Exclusive(s) {
      assert t.muscles == s.muscles;
      assert t.limits == s.limits;
    }
  }

  /** Toggling to the same value twice is the same as once. */
  lemma ToggleIdempotent(s: ModeState, toggle: bool)
    ensures Toggle(Toggle(s, toggle), toggle) == Toggle(s, toggle)
  {
  }

  /** The first switch of a fresh figure, issued when the pose manager wakes, leaves it a ragdoll: muscles off, limits on. */
  lemma StartupIsRagdoll(muscles: seq<bool>, limits: seq<bool>)
    ensures var r := Update(ModeState(false, muscles, limits));
            && r.activated
            && (forall i :: 0 <= i < |r.muscles| ==> !r.muscles[i])
            && (forall i :: 0 <= i < |r.limits| ==> r.limits[i])
  {
  }

  /**
    In either mode no muscle is on while a limit is on: an exclusive state
    with at least one muscle and one limiter never has both kinds of control.
   */
  lemma NeverBoth(s: ModeState, i: int, j: int)
    requires Exclusive(s) && 0 <= i < |s.muscles| && 0 <= j < |s.limits|
    ensures !(s.muscles[i] && s.limits[j])
  {
  }

  class Ragdoll {
    var activated: bool
    /** The limiters found among the figure's children at wake-up. */
    const allHinges: seq<TransformHingeLimiter2D>
    /** The muscles among the figure's children; the hierarchy does not change, so the lookup is a fixed list. */
    const muscles: seq<Muscle>

    constructor (allHinges: seq<TransformHingeLimiter2D>, muscles: seq<Muscle>)
      ensures !activated && this.allHinges == allHinges && this.muscles == muscles
    {
      activated := false;
      this.allHinges := allHinges;
      this.muscles := muscles;
    }

    ghost function MuscleFlags(): (f: seq<bool>)
      reads muscles
      ensures |f| == |muscles| && forall i :: 0 <= i < |muscles| ==> f[i] == muscles[i].musclesActive
    {
      seq(|muscles|, i requires 0 <= i < |muscles| reads muscles => muscles[i].musclesActive)
    }

    ghost function LimitFlags(): (f: seq<bool>)
      reads allHinges
      ensures |f| == |allHinges| && forall i :: 0 <= i < |allHinges| ==> f[i] == allHinges[i].useLimits
    {
      seq(|allHinges|, i requires 0 <= i < |allHinges| reads allHinges => allHinges[i].useLimits)
    }

    ghost function State(): ModeState
      reads this, muscles, allHinges
    {
      ModeState(activated, MuscleFlags(), LimitFlags())
    }

    method UpdateModeToggle(toggle: bool)
      modifies this`activated, muscles, allHinges
      ensures State() == Toggle(old(State()), toggle)
      ensures forall i :: 0 <= i < |muscles| ==> CalibrationOf(muscles[i]) == old(CalibrationOf(muscles[i]))
      ensures forall i :: 0 <= i < |allHinges| ==>
                allHinges[i].lowerAngle == old(allHinges[i].lowerAngle) && allHinges[i].upperAngle == old(allHinges[i].upperAngle)
    {
      var k := 0;
      while k < |muscles|
        invariant 0 <= k <= |muscles|
        invariant forall i :: 0 <= i < k ==> muscles[i].musclesActive == toggle
        invariant forall i :: 0 <= i < |muscles| ==> CalibrationOf(muscles[i]) == old(CalibrationOf(muscles[i]))
        invariant activated == old(activated) && LimitFlags() == old(LimitFlags())
        invariant forall i :: 0 <= i < |allHinges| ==>
                    allHinges[i].lowerAngle == old(allHinges[i].lowerAngle) && allHinges[i].upperAngle == old(allHinges[i].upperAngle)
      {
        muscles[k].musclesActive := toggle;
        k := k + 1;
      }
      SetHingeLimit(!toggle);
      activated := !toggle;
      assert MuscleFlags() == Uniform(|muscles|, toggle);
      assert LimitFlags() == Uniform(|allHinges|, !toggle);
    }

    method UpdateMode()
      modifies this`activated, muscles, allHinges
      ensures State() == Update(old(State()))
      ensures forall i :: 0 <= i < |muscles| ==> CalibrationOf(muscles[i]) == old(CalibrationOf(muscles[i]))
      ensures forall i :: 0 <= i < |allHinges| ==>
                allHinges[i].lowerAngle == old(allHinges[i].lowerAngle) && allHinges[i].upperAngle == old(allHinges[i].upperAngle)
    {
      var k := 0;
      while k < |muscles|
        invariant 0 <= k <= |muscles|
        invariant forall i :: 0 <= i < k ==> muscles[i].musclesActive == activated
        invariant forall i :: 0 <= i < |muscles| ==> CalibrationOf(muscles[i]) == old(CalibrationOf(muscles[i]))
        invariant activated == old(activated) && LimitFlags() == old(LimitFlags())
        invariant forall i :: 0 <= i < |allHinges| ==>
                    allHinges[i].lowerAngle == old(allHinges[i].lowerAngle) && allHinges[i].upperAngle == old(allHinges[i].upperAngle)
      {
        muscles[k].musclesActive := activated;
        k := k + 1;
      }
      SetHingeLimit(!activated);
      activated := !activated;
      assert MuscleFlags() == Uniform(|muscles|, old(activated));
      assert LimitFlags() == Uniform(|allHinges|, !old(activated));
    }

    /** Turns every limiter's limits on or off through `EnableLimits`. */
    method SetHingeLimit(toggle: bool)
      modifies allHinges
      ensures forall i :: 0 <= i < |allHinges| ==> allHinges[i].useLimits == toggle
      ensures forall i :: 0 <= i < |allHinges| ==>
                allHinges[i].lowerAngle == old(allHinges[i].lowerAngle) && allHinges[i].upperAngle == old(allHinges[i].upperAngle)
    {
      var k := 0;
      while k < |allHinges|
        invariant 0 <= k <= |allHinges|
        invariant forall i :: 0 <= i < k ==> allHinges[i].useLimits == toggle
        invariant forall i :: 0 <= i < |allHinges| ==>
                    allHinges[i].lowerAngle == old(allHinges[i].lowerAngle) && allHinges[i].upperAngle == old(allHinges[i].upperAngle)
      {
        allHinges[k].EnableLimits(toggle);
        k := k + 1;
      }
    }
  }
}
