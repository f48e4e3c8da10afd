/** Unity's Quaternion, kept symbolic.

    Quaternion.LookRotation and Quaternion.RotateTowards are engine library code
    this model does not see. A rotation is therefore the expression that built
    it: the two library calls are constructors that are never evaluated. Two
    rotations are equal only when they were built the same way, so the model
    can say whether the script assigned a new rotation and which call produced
    it, and nothing about the resulting angles. */
module Rotations {
  import opened Vectors

  datatype Rotation =
    | Placed(id: int)            // a rotation the scene gave the transform
    | LookRotation(forward: Vec3)
    | RotateTowards(from: Rotation, to: Rotation, maxDegreesDelta: real)

  /** How many RotateTowards calls built a rotation. */
  function Turns(r: Rotation): nat {
    match r
    case Placed(_) => 0
    case LookRotation(_) => 0
    case RotateTowards(from, _, _) => Turns(from) + 1
  }

  /** `Quaternion.RotateTowards(from, Quaternion.LookRotation(dir), maxDegreesDelta)`,
      the turn every movement handler of the script applies. The result records
      one more RotateTowards call than `from`, so the model can tell that the
      rotation was assigned. (The engine may compute the same quaternion again,
      for instance when the player already faces `dir`; the model does not
      evaluate the call and cannot see that.) */
  function TurnToward(from: Rotation, dir: Vec3, maxDegreesDelta: real): (r: Rotation)
    ensures r != from
  {
    var r := RotateTowards(from, LookRotation(dir), maxDegreesDelta);
    assert Turns(r) == Turns(from) + 1;
    r
  }
}
