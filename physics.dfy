/** The part of the pypybox2d physics world that the simulator's own logic
    touches: the weld joints that implement grabbing, and a record of the
    calls that step the world and push bodies about. Integration, collision
    and force arithmetic belong to the library and are not modelled; a call
    that would apply a force is recorded in `log` instead. */
module Physics {
  import opened Base

  /** One result of `world.ray_cast`: the fixture hit, the intercept point,
      the surface normal and the fraction of the ray's length at the hit. */
  datatype RayHit = RayHit(fixture: nat, point: Vec, normal: Vec, fraction: real)

  /** What the simulator asked of the physics world, in order. */
  datatype Call =
    | WorldStep(dt: real, velIters: nat, posIters: nat)  // world.step
    | WheelDrive(body: object, y: real, power: real) // SimRobot._apply_wheel_force
    | WheelCoast(body: object, y: real)              // SimRobot._apply_wheel_coast
    | KillLateral(body: object)                      // the lateral-cancelling impulse

  /** A weld joint holding body b at anchorB to body a at anchorA. */
  class Joint {
    const a: object
    const b: object
    const anchorA: Vec
    const anchorB: Vec

    constructor (a: object, b: object, anchorA: Vec, anchorB: Vec)
      ensures this.a == a && this.b == b && this.anchorA == anchorA && this.anchorB == anchorB
    {
      this.a, this.b, this.anchorA, this.anchorB := a, b, anchorA, anchorB;
    }
  }

  class World {
    var joints: set<Joint>
    var log: seq<Call>

    constructor ()
      ensures joints == {} && log == []
    {
      joints, log := {}, [];
    }

    method Step(dt: real, velIters: nat, posIters: nat)
      modifies this
      ensures log == old(log) + [WorldStep(dt, velIters, posIters)]
      ensures joints == old(joints)
    {
      log := log + [WorldStep(dt, velIters, posIters)];
    }

    /** Records a force or impulse applied to a body. */
    method Apply(c: Call)
      requires !c.WorldStep?
      modifies this
      ensures log == old(log) + [c]
      ensures joints == old(joints)
    {
      log := log + [c];
    }

    method CreateWeldJoint(a: object, b: object, anchorA: Vec, anchorB: Vec) returns (j: Joint)
      modifies this
      ensures fresh(j) && j.a == a && j.b == b && j.anchorA == anchorA && j.anchorB == anchorB
      ensures joints == old(joints) + {j}
      ensures log == old(log)
    {
      j := new Joint(a, b, anchorA, anchorB);
      joints := joints + {j};
    }

    method DestroyJoint(j: Joint)
      modifies this
      ensures joints == old(joints) - {j}
      ensures log == old(log)
    {
      joints := joints - {j};
    }
  }
}
