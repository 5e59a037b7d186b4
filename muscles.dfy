/**
  One body part's "muscle" (Assets/Scripts/Muscle.cs): the load it carries,
  the torque factor derived from that load, and the per-tick PD controller
  that overrides the body's angular velocity to hold a target angle.
 */
module Muscles {
  import opened Wrappers
  import opened UnityMath
  import opened Bodies

  /** What one `carriedParts` entry adds while the running total is summed. */
  datatype CarriedLoad =
    | Absent              // a null entry
    | Own                 // an entry naming the part being calculated: it reads the running total
    | Part(load: real)    // another part: its last calculated total

  /** One iteration of the `foreach` in `CalculateTotalLoadAndFactor`: the running total after one more entry. */
  function Step(acc: real, influence: real, load: CarriedLoad): real
  {
    match load
    case Absent => acc
    case Own => acc + acc * influence
    case Part(t) => acc + t * influence
  }

  /** The running total of the `foreach` in `CalculateTotalLoadAndFactor`, after the entries `loads`. */
  function Accumulate(own: real, influence: real, loads: seq<CarriedLoad>): real
    decreases |loads|
  {
    if loads == [] then own
    else Step(Accumulate(own, influence, loads[..|loads| - 1]), influence, loads[|loads| - 1])
  }

  /** A step adds the influence-weighted total of the entry's part, which for a self reference is the running total. */
  lemma StepOfEntry(acc: real, influence: real, load: CarriedLoad, total: real)
    requires (load == Own && total == acc) || load == Part(total)
    ensures Step(acc, influence, load) == acc + total * influence
  {
  }

  lemma AccumulateSnoc(own: real, influence: real, loads: seq<CarriedLoad>, j: nat)
    requires j < |loads|
    ensures Accumulate(own, influence, loads[..j + 1]) == Step(Accumulate(own, influence, loads[..j]), influence, loads[j])
  {
    assert loads[..j + 1][..j] == loads[..j];
  }

  /** The sum of the carried parts' totals, null entries left out. */
  function CarriedSum(loads: seq<CarriedLoad>): real
    decreases |loads|
  {
    if loads == [] then 0.0
    else
      CarriedSum(loads[..|loads| - 1]) +
      (match loads[|loads| - 1] case Part(t) => t case _ => 0.0)
  }

  predicate NoSelfCarry(loads: seq<CarriedLoad>)
  {
    forall j :: 0 <= j < |loads| ==> !loads[j].Own?
  }

  /** Without a self reference, the total is the own mass plus the influence factor times the carried totals. */
  lemma {:induction false} AccumulateIsWeightedSum(own: real, influence: real, loads: seq<CarriedLoad>)
    requires NoSelfCarry(loads)
    ensures Accumulate(own, influence, loads) == own + influence * CarriedSum(loads)
    decreases |loads|
  {
    if loads != [] {
      var init := loads[..|loads| - 1];
      assert NoSelfCarry(init) by {
        forall j | 0 <= j < |init| ensures !init[j].Own? { assert init[j] == loads[j]; }
      }
      AccumulateIsWeightedSum(own, influence, init);
      match loads[|loads| - 1]
      case Absent =>
      case Part(t) =>
        assert influence * (CarriedSum(init) + t) == influence * CarriedSum(init) + t * influence;
    }
  }

  /** With a non-negative mass and factor and non-negative carried totals, a part carries at least its own mass. */
  lemma {:induction false} AccumulateAtLeastOwn(own: real, influence: real, loads: seq<CarriedLoad>)
    requires own >= 0.0 && influence >= 0.0
    requires forall j :: 0 <= j < |loads| && loads[j].Part? ==> loads[j].load >= 0.0
    ensures Accumulate(own, influence, loads) >= own
    decreases |loads|
  {
    if loads != [] {
      var init := loads[..|loads| - 1];
      assert forall j :: 0 <= j < |init| ==> init[j] == loads[j];
      AccumulateAtLeastOwn(own, influence, init);
      var acc := Accumulate(own, influence, init);
      assert Accumulate(own, influence, loads) == Step(acc, influence, loads[|loads| - 1]);
      match loads[|loads| - 1]
      case Absent =>
      case Own => MulNonNegative(acc, influence);
      case Part(t) => MulNonNegative(t, influence);
    }
  }

  /**
    The torque factor: `baseTorqueFactorK * (total * leverage) / mass` for a
    positive mass, and 0 for a zero or negative mass (no division by zero).
   */
  function LoadFactor(torqueK: real, total: real, leverage: real, mass: real): real
  {
    if mass > 0.0 then torqueK * ((total * leverage) / mass) else 0.0
  }

  /**
    More load never lowers the factor of a part with non-negative torque
    constant and leverage, and with all three positive strictly more load
    gives a strictly larger factor; a part without positive mass has factor 0
    whatever it carries.
   */
  lemma LoadFactorMonotone(torqueK: real, total: real, total': real, leverage: real, mass: real)
    requires 0.0 <= torqueK && 0.0 <= leverage && total <= total'
    ensures LoadFactor(torqueK, total, leverage, mass) <= LoadFactor(torqueK, total', leverage, mass)
    ensures 0.0 < torqueK && 0.0 < leverage && 0.0 < mass && total < total' ==>
              LoadFactor(torqueK, total, leverage, mass) < LoadFactor(torqueK, total', leverage, mass)
    ensures mass <= 0.0 ==> LoadFactor(torqueK, total', leverage, mass) == 0.0
  {
    if mass > 0.0 {
      var d := total' - total;
      var e := (d * leverage) / mass;
      assert total' * leverage == total * leverage + d * leverage;
      assert (total' * leverage) / mass == (total * leverage) / mass + e;
      assert LoadFactor(torqueK, total', leverage, mass) == LoadFactor(torqueK, total, leverage, mass) + torqueK * e;
      MulNonNegative(d, leverage);
      QuotientSign(d * leverage, mass);
      MulNonNegative(torqueK, e);
      if 0.0 < torqueK && 0.0 < leverage && total < total' {
        MulPositive(d, leverage);
        MulPositive(torqueK, e);
      }
    }
  }

  /** Dividing by a positive number keeps the sign. */
  lemma QuotientSign(a: real, m: real)
    requires m > 0.0
    ensures a >= 0.0 ==> a / m >= 0.0
    ensures a > 0.0 ==> a / m > 0.0
  {
  }

  /** The first step of every tick: `Repeat(rotation + 180, 360) - 180`, the same direction in `[-180, 180)`. */
  function NormalizeRotation(rotation: real): (n: real)
    ensures -180.0 <= n < 180.0
    ensures Congruent(rotation, n)
  {
    Repeat(rotation + 180.0, 360.0) - 180.0
  }

  /**
    The commanded angular velocity of one pose-control tick:
    (error * pGain * pBase - angularVelocity * damping) * (factor + external strength) * mass,
    where the error is the shortest turn from the current angle to the target.
   */
  function PoseVelocity(angle: real, targetAngle: real, pGain: real, pBase: real,
                        angularVelocity: real, dampingFactor: real,
                        loadFactor: real, externalStrength: real, mass: real): real
  {
    var angleError := DeltaAngle(angle, targetAngle);
    var proportionalVelocity := angleError * pGain * pBase;
    var dampingVelocity := -angularVelocity * dampingFactor;
    (proportionalVelocity + dampingVelocity) * (loadFactor + externalStrength) * mass
  }

  /** At the target direction and without spin the command is exactly zero, whatever the gains and load. */
  lemma PoseVelocityAtRest(angle: real, targetAngle: real, pGain: real, pBase: real,
                           dampingFactor: real, loadFactor: real, externalStrength: real, mass: real)
    requires Congruent(targetAngle, angle)
    ensures PoseVelocity(angle, targetAngle, pGain, pBase, 0.0, dampingFactor, loadFactor, externalStrength, mass) == 0.0
  {
    DeltaAngleOfSameDirection(angle, targetAngle);
  }

  /** The command depends on the direction of the body only, not on how many turns its rotation has accumulated. */
  lemma PoseVelocityIgnoresTurns(angle: real, angle': real, targetAngle: real, pGain: real, pBase: real,
                                 angularVelocity: real, dampingFactor: real,
                                 loadFactor: real, externalStrength: real, mass: real)
    requires Congruent(angle, angle')
    ensures PoseVelocity(angle, targetAngle, pGain, pBase, angularVelocity, dampingFactor, loadFactor, externalStrength, mass)
         == PoseVelocity(angle', targetAngle, pGain, pBase, angularVelocity, dampingFactor, loadFactor, externalStrength, mass)
  {
    CongruentSym(angle, angle');
    CongruentOfDifference(targetAngle - angle, targetAngle - angle', angle', angle);
    DeltaAngleCongruent(angle, targetAngle, angle', targetAngle);
  }

  /** Starting from rest with positive gains, strength and mass, the command turns the body the short way to the target. */
  lemma PoseVelocityTurnsTowardTarget(angle: real, targetAngle: real, pGain: real, pBase: real,
                                      dampingFactor: real, loadFactor: real, externalStrength: real, mass: real)
    requires pGain > 0.0 && pBase > 0.0 && loadFactor + externalStrength > 0.0 && mass > 0.0
    ensures var v := PoseVelocity(angle, targetAngle, pGain, pBase, 0.0, dampingFactor, loadFactor, externalStrength, mass);
            (v > 0.0 <==> DeltaAngle(angle, targetAngle) > 0.0) && (v < 0.0 <==> DeltaAngle(angle, targetAngle) < 0.0)
  {
    var e := DeltaAngle(angle, targetAngle);
    var g := pGain * pBase * (loadFactor + externalStrength) * mass;
    MulPositive(pGain, pBase);
    MulPositive(pGain * pBase, loadFactor + externalStrength);
    MulPositive(pGain * pBase * (loadFactor + externalStrength), mass);
    var v := PoseVelocity(angle, targetAngle, pGain, pBase, 0.0, dampingFactor, loadFactor, externalStrength, mass);
    assert v == e * g;
    if e > 0.0 { MulPositive(e, g); }
    else if e < 0.0 { MulPositive(-e, g); }
  }

  /** At the target direction, positive damping, strength and mass make the command oppose the current spin. */
  lemma PoseVelocityDampsSpin(angle: real, targetAngle: real, pGain: real, pBase: real,
                              angularVelocity: real, dampingFactor: real,
                              loadFactor: real, externalStrength: real, mass: real)
    requires Congruent(targetAngle, angle)
    requires dampingFactor > 0.0 && loadFactor + externalStrength > 0.0 && mass > 0.0
    ensures var v := PoseVelocity(angle, targetAngle, pGain, pBase, angularVelocity, dampingFactor, loadFactor, externalStrength, mass);
            (angularVelocity > 0.0 ==> v < 0.0) && (angularVelocity < 0.0 ==> v > 0.0)
  {
    DeltaAngleOfSameDirection(angle, targetAngle);
    var g := dampingFactor * (loadFactor + externalStrength) * mass;
    MulPositive(dampingFactor, loadFactor + externalStrength);
    MulPositive(dampingFactor * (loadFactor + externalStrength), mass);
    var v := PoseVelocity(angle, targetAngle, pGain, pBase, angularVelocity, dampingFactor, loadFactor, externalStrength, mass);
    assert v == -angularVelocity * g;
    if angularVelocity > 0.0 { MulPositive(angularVelocity, g); }
    else if angularVelocity < 0.0 { MulPositive(-angularVelocity, g); }
  }

  /** Target 0, relative angle 30, pGain 1, pBase 30, damping 5, no spin, factor 10, no external strength, mass 1: velocity -9000. */
  lemma PoseVelocityExample()
    ensures DeltaAngle(30.0, 0.0) == -30.0
    ensures PoseVelocity(30.0, 0.0, 1.0, 30.0, 0.0, 5.0, 10.0, 0.0, 1.0) == -9000.0
  {
    assert (-30.0 - 330.0) / 360.0 == -1.0;
    RepeatUnique(-30.0, 330.0);
  }

  class Muscle {
    var pBase: real
    /** Extra strength added to the load factor; authored, never written by the scripts. */
    const externalMuscleStrength: real
    /** Indices into the figure's arena of muscles; `None` is a null array and a `None` entry a null reference. */
    const carriedParts: Option<seq<Option<int>>>
    const leverageFactor: real
    const baseTorqueFactorK: real
    /** Target world angle of the body. */
    const targetAngle: real
    const loadInfluenceFactor: real
    var musclesActive: bool
    const pGain: real
    const dampingFactor: real
    const rb: RigidBody2D
    var totalMassToCarry: real
    var finalLoadPer1: real
    var loadCalculated: bool

    /** A muscle as the scene creates it, from its authored values; pose control on, nothing calculated. */
    constructor (rb: RigidBody2D, carriedParts: Option<seq<Option<int>>>, leverageFactor: real,
                 baseTorqueFactorK: real, targetAngle: real, loadInfluenceFactor: real,
                 externalMuscleStrength: real, pGain: real, dampingFactor: real)
      ensures this.rb == rb && this.carriedParts == carriedParts
      ensures this.leverageFactor == leverageFactor && this.baseTorqueFactorK == baseTorqueFactorK
      ensures this.targetAngle == targetAngle && this.loadInfluenceFactor == loadInfluenceFactor
      ensures this.externalMuscleStrength == externalMuscleStrength
      ensures this.pGain == pGain && this.dampingFactor == dampingFactor
      ensures pBase == 30.0 && musclesActive
      ensures totalMassToCarry == 0.0 && finalLoadPer1 == 0.0 && !loadCalculated
    {
      this.rb := rb;
      this.carriedParts := carriedParts;
      this.leverageFactor := leverageFactor;
      this.baseTorqueFactorK := baseTorqueFactorK;
      this.targetAngle := targetAngle;
      this.loadInfluenceFactor := loadInfluenceFactor;
      this.externalMuscleStrength := externalMuscleStrength;
      this.pGain := pGain;
      this.dampingFactor := dampingFactor;
      pBase := 30.0;
      musclesActive := true;
      totalMassToCarry := 0.0;
      finalLoadPer1 := 0.0;
      loadCalculated := false;
    }

    function GetTotalMassLoad(): real
      reads this
    {
      totalMassToCarry
    }

    function GetCarriedParts(): Option<seq<Option<int>>>
    {
      carriedParts
    }

    /** The carried entries, a null array read as none. */
    function Carried(): seq<Option<int>>
    {
      match carriedParts
      case None => []
      case Some(parts) => parts
    }

    /** Every non-null carried entry names a muscle of an arena of `n` muscles. */
    ghost predicate CarriedIn(n: int)
    {
      forall j :: 0 <= j < |Carried()| && Carried()[j].Some? ==> 0 <= Carried()[j].value < n
    }

    ghost function LoadOfEntry(arena: seq<Muscle>, entry: Option<int>): CarriedLoad
      reads arena
      requires entry.Some? ==> 0 <= entry.value < |arena|
    {
      match entry
      case None => Absent
      case Some(c) => if arena[c] == this then Own else Part(arena[c].totalMassToCarry)
    }

    /** What each carried entry contributes, read from the arena's current totals. */
    ghost function CarriedLoads(arena: seq<Muscle>): (loads: seq<CarriedLoad>)
      reads arena
      requires CarriedIn(|arena|)
      ensures |loads| == |Carried()|
      ensures forall j :: 0 <= j < |loads| ==> loads[j] == LoadOfEntry(arena, Carried()[j])
    {
      seq(|Carried()|, j requires 0 <= j < |Carried()| reads arena => LoadOfEntry(arena, Carried()[j]))
    }

    /**
      Sets the total load to the own mass plus the influence-weighted loads of
      the carried parts, then the torque factor; marks the load calculated only
      for a positive mass.
     */
    method CalculateTotalLoadAndFactor(arena: seq<Muscle>)
      requires CarriedIn(|arena|)
      modifies this`totalMassToCarry, this`finalLoadPer1, this`loadCalculated
      ensures totalMassToCarry == Accumulate(rb.mass, loadInfluenceFactor, old(CarriedLoads(arena)))
      ensures finalLoadPer1 == LoadFactor(baseTorqueFactorK, totalMassToCarry, leverageFactor, rb.mass)
      ensures loadCalculated == (old(loadCalculated) || rb.mass > 0.0)
    {
      SumTotalMassToCarry(arena);
      if rb.mass > 0.0 {
        var ratio := (totalMassToCarry * leverageFactor) / rb.mass;
        finalLoadPer1 := baseTorqueFactorK * ratio;
      } else {
        finalLoadPer1 := 0.0;
        return;
      }
      loadCalculated := true;
    }

    /** Step 1 of `CalculateTotalLoadAndFactor`: the own mass, then each carried entry's weighted total added in order. */
    method SumTotalMassToCarry(arena: seq<Muscle>)
      requires CarriedIn(|arena|)
      modifies this`totalMassToCarry
      ensures totalMassToCarry == Accumulate(rb.mass, loadInfluenceFactor, old(CarriedLoads(arena)))
    {
      ghost var loads := CarriedLoads(arena);
      totalMassToCarry := rb.mass;
      if carriedParts != None {
        var parts := carriedParts.value;
        assert parts == Carried();
        var j := 0;
        while j < |parts|
          invariant 0 <= j <= |parts|
          invariant totalMassToCarry == Accumulate(rb.mass, loadInfluenceFactor, loads[..j])
        {
          AccumulateSnoc(rb.mass, loadInfluenceFactor, loads, j);
          match parts[j] {
            case None =>
              assert loads[j] == Absent;
            case Some(c) =>
              var partMuscle := arena[c];
              ghost var load := old(LoadOfEntry(arena, Some(c)));
              assert loads[j] == load;
              assert partMuscle != this ==> load == Part(partMuscle.totalMassToCarry);
              StepOfEntry(totalMassToCarry, loadInfluenceFactor, load, partMuscle.GetTotalMassLoad());
              totalMassToCarry := totalMassToCarry + partMuscle.GetTotalMassLoad() * loadInfluenceFactor;
          }
          j := j + 1;
        }
        assert loads[..|parts|] == loads;
      }
    }

    /** One physics tick: normalize the rotation, then run pose control while it is switched on. */
    method FixedUpdate()
      modifies rb`rotation, rb`angularVelocity
      ensures rb.rotation == NormalizeRotation(old(rb.rotation))
      ensures -180.0 <= rb.rotation < 180.0
      ensures rb.angularVelocity ==
                if musclesActive && loadCalculated then
                  PoseVelocity(rb.rotation, targetAngle, pGain, pBase, old(rb.angularVelocity),
                               dampingFactor, finalLoadPer1, externalMuscleStrength, rb.mass)
                else old(rb.angularVelocity)
    {
      var normalizedRotation := Repeat(rb.rotation + 180.0, 360.0) - 180.0;
      rb.rotation := normalizedRotation;
      if !musclesActive {
        return;
      }
      ApplyTorqueToMaintainPose();
    }

    /** Overrides the body's angular velocity with the PD command, once the load has been calculated. */
    method ApplyTorqueToMaintainPose()
      modifies rb`angularVelocity
      ensures rb.angularVelocity ==
                if loadCalculated then
                  PoseVelocity(rb.rotation, targetAngle, pGain, pBase, old(rb.angularVelocity),
                               dampingFactor, finalLoadPer1, externalMuscleStrength, rb.mass)
                else old(rb.angularVelocity)
    {
      if !loadCalculated {
        return;
      }
      var currentAngle := rb.rotation;
      var angleError := DeltaAngle(currentAngle, targetAngle);
      var proportionalVelocity := angleError * pGain * pBase;
      var dampingVelocity := -rb.angularVelocity * dampingFactor;
      var pdTargetVelocity := proportionalVelocity + dampingVelocity;
      var finalTorqueStrength := finalLoadPer1 + externalMuscleStrength;
      var finalTargetAngularVelocity := pdTargetVelocity * finalTorqueStrength * rb.mass;
      rb.angularVelocity := finalTargetAngularVelocity;
    }

    /** Switches pose control; switching it off also stops the body's spin. */
    method SetMusclesActive(isActive: bool)
      modifies this`musclesActive, rb`angularVelocity
      ensures musclesActive == isActive
      ensures rb.angularVelocity == if isActive then old(rb.angularVelocity) else 0.0
    {
      musclesActive := isActive;
      if !isActive {
        rb.angularVelocity := 0.0;
      }
    }

    /** Accepts only a positive proportional base. */
    method SetPBase(value: real)
      modifies this`pBase
      ensures pBase == if value > 0.0 then value else old(pBase)
    {
      if value > 0.0 {
        pBase := value;
      }
    }
  }
}
