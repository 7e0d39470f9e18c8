/** The simulated robot and the arena it lives in: motor dispatch on each
    tick, the ultrasound fan, grabbing and releasing, and the camera.

    Arena objects of different classes are gathered in the sum type Obj,
    whose members answer the questions the robot asks of any object
    (location, marker id, grabbable, grabbed, has a body). A physics body
    is inlined into its owner as position, angle and velocity; a body's
    world centre is its position. */
module Sim {
  import opened Base
  import opened Physics
  import opened Motors
  import opened Vision
  import opened Sorting
  import ArenaGeometry
  import Markers
  import TinCanRallyObjects
  import TinCanRally2018Objects
  import PirateIslandsObjects
  import SbotPirateIslandsObjects

  const GRAB_RADIUS: real := 0.4
  const HALF_GRAB_SECTOR_WIDTH: real := PI / 4.0
  const HALF_FOV_WIDTH: real := PI / 6.0
  const GRABBER_OFFSET: real := 0.25
  const MOTION_BLUR_SPEED_THRESHOLD: real := 5.0
  const ROBOT_WIDTH: real := 0.45
  const ROBOT_SURFACE: string := "sb/robot.png"
  /** Arena.tick's world step: velocity and position iterations. */
  const VEL_ITERS: nat := 8
  const POS_ITERS: nat := 3
  /** The ultrasound fan: 10 rays either side of the centre ray. */
  const SPREAD_CASTS: nat := 10
  const CAST_RANGE: real := 4.0

  /* ------------------------------------------------------------------ */
  /* Arena objects                                                       */

  datatype Obj =
    | Robot(robot: SimRobot)
    | MarkerToken(token: Markers.Token)
    | WallMarker(wallMarker: Markers.WallMarker)
    | TcrWall(tcrWall: TinCanRallyObjects.TCRWall)
    | TcrToken(tcrToken: TinCanRallyObjects.Token)
    | Tcr2018Wall(tcr2018Wall: TinCanRally2018Objects.TCRWall)
    | Tcr2018Token(tcr2018Token: TinCanRally2018Objects.Token)
    | Pedestal(pedestal: PirateIslandsObjects.Pedestal)
    | SbotPedestal(sbotPedestal: SbotPirateIslandsObjects.Pedestal)
  {
    /** The Python object this value stands for. */
    function Ref(): object {
      match this
      case Robot(r) => r
      case MarkerToken(t) => t
      case WallMarker(w) => w
      case TcrWall(w) => w
      case TcrToken(t) => t
      case Tcr2018Wall(w) => w
      case Tcr2018Token(t) => t
      case Pedestal(p) => p
      case SbotPedestal(p) => p
    }

    function Location(): Vec
      reads Ref()
    {
      match this
      case Robot(r) => r.position
      case MarkerToken(t) => t.position
      case WallMarker(w) => w.location
      case TcrWall(w) => w.position
      case TcrToken(t) => t.position
      case Tcr2018Wall(w) => w.position
      case Tcr2018Token(t) => t.position
      case Pedestal(p) => p.position
      case SbotPedestal(p) => p.position
    }

    function Heading(): real
      reads Ref()
    {
      match this
      case Robot(r) => r.angle
      case MarkerToken(t) => t.angle
      case WallMarker(w) => w.heading
      case TcrWall(w) => w.angle
      case TcrToken(t) => t.angle
      case Tcr2018Wall(w) => w.angle
      case Tcr2018Token(t) => t.angle
      case Pedestal(p) => p.angle
      case SbotPedestal(p) => p.angle
    }

    /** Only the generic tokens and wall markers set marker_id; every other
        class keeps the base class's None. */
    function MarkerId(): Option<int> {
      match this
      case MarkerToken(t) => t.markerId
      case WallMarker(w) => w.markerId
      case _ => None
    }

    predicate Grabbable() {
      MarkerToken? || TcrToken? || Tcr2018Token?
    }

    /** Read only for grabbable objects, which all define it. */
    predicate Grabbed()
      reads Ref()
    {
      match this
      case MarkerToken(t) => t.grabbed
      case TcrToken(t) => t.grabbed
      case Tcr2018Token(t) => t.grabbed
      case _ => false
    }

    /** Whether the object has a physics body: all but wall markers. */
    predicate HasBody() {
      !WallMarker?
    }

    /** The body's linear velocity; read only for robots. */
    function Velocity(): Vec
      reads Ref()
    {
      if Robot? then robot.velocity else Vec(0.0, 0.0)
    }
  }

  /** What the robot's sensors and grabber see of one object at one moment. */
  datatype View = View(
    location: Vec,
    markerId: Option<int>,
    grabbable: bool,
    grabbed: bool,
    isRobot: bool,
    velocity: Vec)

  function Snap(o: Obj): View
    reads o.Ref()
  {
    View(o.Location(), o.MarkerId(), o.Grabbable(), o.Grabbed(), o.Robot?, o.Velocity())
  }

  function Footprint(objs: seq<Obj>): set<object> {
    set i | 0 <= i < |objs| :: objs[i].Ref()
  }

  /** The views of a list of objects, in list order. */
  function Snaps(objs: seq<Obj>): (r: seq<View>)
    reads Footprint(objs)
    ensures |r| == |objs|
    ensures forall i :: 0 <= i < |objs| ==> r[i] == Snap(objs[i])
  {
    if objs == [] then []
    else
      assert Footprint(objs[..|objs| - 1]) <= Footprint(objs);
      Snaps(objs[..|objs| - 1]) + [Snap(objs[|objs| - 1])]
  }

  /** The views after every occurrence of target has had its grabbed flag
      set to flag; the other entries are as they were. */
  function MarkGrabbed(objs: seq<Obj>, views: seq<View>, target: Obj, flag: bool): (r: seq<View>)
    requires |views| == |objs|
    ensures |r| == |views|
  {
    seq(|views|, i requires 0 <= i < |views| =>
      if objs[i] == target then views[i].(grabbed := flag) else views[i])
  }

  /** Setting the flag and then clearing it restores views in which no
      occurrence of the target was grabbed. */
  lemma MarkGrabbedRestores(objs: seq<Obj>, views: seq<View>, target: Obj)
    requires |views| == |objs|
    requires forall i :: 0 <= i < |objs| && objs[i] == target ==> !views[i].grabbed
    ensures MarkGrabbed(objs, MarkGrabbed(objs, views, target, true), target, false) == views
  {
    var r := MarkGrabbed(objs, MarkGrabbed(objs, views, target, true), target, false);
    forall i | 0 <= i < |views| ensures r[i] == views[i] {
      if objs[i] == target {
        assert views[i].(grabbed := false) == views[i];
      }
    }
  }

  /** The list object `arena.objects`, shared with whoever passed it in. */
  class ObjectList {
    var items: seq<Obj>

    constructor ()
      ensures items == []
    {
      items := [];
    }

    method Append(o: Obj)
      modifies this
      ensures items == old(items) + [o]
    {
      items := items + [o];
    }
  }

  /* ------------------------------------------------------------------ */
  /* Arena                                                               */

  /** The physics calls one robot's tick makes: the left wheel at
      -width/2 driven by m0, then the right wheel at +width/2 driven by m1,
      then the impulse that cancels sideways motion. */
  function TickCalls(body: object, m0: MotorValue, m1: MotorValue): (r: seq<Call>)
    ensures |r| == 3 && r[2] == KillLateral(body)
    ensures r[0].WheelCoast? <==> m0 == COAST
    ensures r[1].WheelCoast? <==> m1 == COAST
    ensures m0 != COAST ==> r[0] == WheelDrive(body, -ROBOT_WIDTH / 2.0, m0.v * 100.0)
    ensures m1 != COAST ==> r[1] == WheelDrive(body, ROBOT_WIDTH / 2.0, m1.v * 100.0)
    ensures m0 == COAST ==> r[0] == WheelCoast(body, -ROBOT_WIDTH / 2.0)
    ensures m1 == COAST ==> r[1] == WheelCoast(body, ROBOT_WIDTH / 2.0)
  {
    [WheelCall(body, -(ROBOT_WIDTH * 0.5), m0), WheelCall(body, ROBOT_WIDTH * 0.5, m1), KillLateral(body)]
  }

  function WheelCall(body: object, y: real, m: MotorValue): Call {
    if m == COAST then WheelCoast(body, y) else WheelDrive(body, y, m.v * 100.0)
  }

  function Boards(objs: seq<Obj>): set<object> {
    set i | 0 <= i < |objs| && objs[i].Robot? :: objs[i].robot.motorBoard
  }

  ghost predicate BoardsValid(objs: seq<Obj>)
    reads Boards(objs)
  {
    forall i :: 0 <= i < |objs| && objs[i].Robot? ==> objs[i].robot.motorBoard.Valid()
  }

  /** The calls of ticking every object of objs that has a tick (the
      robots), in list order. */
  function TickAll(objs: seq<Obj>): (r: seq<Call>)
    requires BoardsValid(objs)
    reads Boards(objs)
  {
    if objs == [] then []
    else
      var o := objs[|objs| - 1];
      assert Boards(objs[..|objs| - 1]) <= Boards(objs);
      TickAll(objs[..|objs| - 1])
        + (if o.Robot? then TickCalls(o.robot, o.robot.motorBoard.M0(), o.robot.motorBoard.M1()) else [])
  }

  /** Ticking the arena touches only the robots of the list: every call in
      TickAll is about a body of a robot listed in objs, and no call steps
      the world. */
  lemma {:induction false} TickAllOnlyRobots(objs: seq<Obj>)
    requires BoardsValid(objs)
    ensures forall c :: c in TickAll(objs) ==>
      !c.WorldStep? && exists i :: 0 <= i < |objs| && objs[i].Robot? && c.body == objs[i].robot
    ensures |TickAll(objs)| % 3 == 0
  {
    if objs != [] {
      var init := objs[..|objs| - 1];
      assert Boards(init) <= Boards(objs);
      TickAllOnlyRobots(init);
      forall c | c in TickAll(objs)
        ensures !c.WorldStep? && exists i :: 0 <= i < |objs| && objs[i].Robot? && c.body == objs[i].robot
      {
        if c in TickAll(init) {
          var i :| 0 <= i < |init| && init[i].Robot? && c.body == init[i].robot;
          assert objs[i] == init[i];
        } else {
          assert objs[|objs| - 1].Robot?;
        }
      }
    }
  }

  class Arena {
    const size: Vec
    /** The physics world the arena's bodies live in. */
    const world: World
    const objects: ObjectList

    /** The constructor keeps the caller's list object when one is given. */
    constructor (objects: Option<ObjectList>)
      ensures size == Vec(8.0, 8.0)
      ensures fresh(world) && world.joints == {} && world.log == []
      ensures objects.Some? ==> this.objects == objects.value
      ensures objects.None? ==> fresh(this.objects) && this.objects.items == []
    {
      size := Vec(8.0, 8.0);
      world := new World();
      if objects.Some? {
        this.objects := objects.value;
      } else {
        this.objects := new ObjectList();
      }
    }

    function Left(): real { ArenaGeometry.Left(size) }
    function Right(): real { ArenaGeometry.Right(size) }
    function Top(): real { ArenaGeometry.Top(size) }
    function Bottom(): real { ArenaGeometry.Bottom(size) }
    function Corners(): seq<Vec> { ArenaGeometry.Corners(size) }

    function ContainsPoint(p: Vec): ArenaGeometry.PointCheck {
      ArenaGeometry.ContainsPoint(size, p)
    }

    /** Every robot listed in this arena belongs to it and is well formed. */
    ghost predicate RobotsValid()
      reads this, objects, Footprint(objects.items), Boards(objects.items)
    {
      forall i :: 0 <= i < |objects.items| && objects.items[i].Robot? ==>
        objects.items[i].robot.arena == this && objects.items[i].robot.Valid()
    }

    /** Steps the world once, then ticks every object that has a tick, in
        list order; the list itself is left alone. */
    method Tick(dt: real)
      requires RobotsValid()
      modifies world
      ensures BoardsValid(objects.items)
      ensures world.log == old(world.log) + [WorldStep(dt, VEL_ITERS, POS_ITERS)] + TickAll(objects.items)
      ensures world.joints == old(world.joints)
    {
      world.Step(dt, VEL_ITERS, POS_ITERS);
      var i := 0;
      while i < |objects.items|
        invariant 0 <= i <= |objects.items|
        invariant BoardsValid(objects.items[..i])
        invariant world.log == old(world.log) + [WorldStep(dt, VEL_ITERS, POS_ITERS)] + TickAll(objects.items[..i])
        invariant world.joints == old(world.joints)
      {
        var o := objects.items[i];
        assert objects.items[..i + 1][..i] == objects.items[..i];
        // the robots' ticks write the world, which holds no motor board
        assert world !in Boards(objects.items[..i]);
        if o.Robot? {
          o.robot.Tick(dt);
        }
        i := i + 1;
      }
      assert objects.items[..i] == objects.items;
    }
  }

  /* ------------------------------------------------------------------ */
  /* Ultrasound                                                          */

  /** The angular offsets of the fan's rays: max * x / 10 for x = -10..10,
      with max 10 degrees. */
  function SpreadOffsets(): (r: seq<real>)
    ensures |r| == 2 * SPREAD_CASTS + 1
    ensures r[0] == -Radians(10.0) && r[SPREAD_CASTS] == 0.0 && r[2 * SPREAD_CASTS] == Radians(10.0)
    ensures forall i :: 0 <= i < |r| ==> r[i] == -r[2 * SPREAD_CASTS - i]
  {
    seq(2 * SPREAD_CASTS + 1, i => Radians(10.0) * ((i - SPREAD_CASTS) as real / SPREAD_CASTS as real))
  }

  /** The far end of a ray cast from centre at castAngle. */
  function CastTarget(centre: Vec, castAngle: real, trig: Trig): Vec {
    Vec(centre.x + CAST_RANGE * trig.cos(castAngle), centre.y + CAST_RANGE * trig.sin(castAngle))
  }

  /** The hits of the first n rays of the fan, in cast order. */
  function FanHits(centre: Vec, bodyAngle: real, angleOffset: real, trig: Trig,
                   rayCast: (Vec, Vec) -> seq<RayHit>, n: nat): seq<RayHit>
    requires n <= |SpreadOffsets()|
  {
    if n == 0 then []
    else
      FanHits(centre, bodyAngle, angleOffset, trig, rayCast, n - 1)
        + rayCast(centre, CastTarget(centre, bodyAngle + angleOffset + SpreadOffsets()[n - 1], trig))
  }

  function Fraction(h: RayHit): real { h.fraction }

  /** The distance a ping reports for the hits of its fan: none without a
      hit, otherwise the cast range times the nearest hit's fraction. */
  function PingDistance(hits: seq<RayHit>): (r: Option<real>)
    ensures r.None? <==> hits == []
    ensures r.Some? ==> exists h :: h in hits && r.value == CAST_RANGE * h.fraction
    ensures r.Some? ==> forall h :: h in hits ==> r.value <= CAST_RANGE * h.fraction
    ensures r.Some? && (forall h :: h in hits ==> 0.0 <= h.fraction <= 1.0) ==> 0.0 <= r.value <= CAST_RANGE
  {
    if hits == [] then None
    else
      SortByHead(hits, Fraction);
      var nearest := SortBy(hits, Fraction)[0];
      Some(nearest.fraction * CAST_RANGE)
  }

  /** Pin pairs with an ultrasound module and the direction it points. */
  const ULTRASOUND_ANGLES: map<(int, int), (string, real)> :=
    map[(6, 7) := ("ahead", 0.0), (8, 9) := ("right", PI / 2.0), (10, 11) := ("left", -PI / 2.0)]

  function UltrasoundOffset(trigger: int, echo: int): (r: Option<real>)
    ensures r.Some? <==> (trigger, echo) == (6, 7) || (trigger, echo) == (8, 9) || (trigger, echo) == (10, 11)
    ensures (trigger, echo) == (6, 7) ==> r == Some(0.0)
    ensures (trigger, echo) == (8, 9) ==> r == Some(PI / 2.0)
    ensures (trigger, echo) == (10, 11) ==> r == Some(-PI / 2.0)
  {
    if (trigger, echo) in ULTRASOUND_ANGLES then Some(ULTRASOUND_ANGLES[(trigger, echo)].1) else None
  }

  /* ------------------------------------------------------------------ */
  /* Grabbing                                                            */

  /** The grabber's test: grabbable, within the radius (inclusive), raw
      bearing difference strictly inside the sector, and not held. */
  predicate GrabCandidate(v: View, pos: Vec, heading: real, trig: Trig) {
    var rel := Sub(v.location, pos);
    v.grabbable
    && trig.hypot(rel.x, rel.y) <= GRAB_RADIUS
    && -HALF_GRAB_SECTOR_WIDTH < trig.atan2(rel.y, rel.x) - heading < HALF_GRAB_SECTOR_WIDTH
    && !v.grabbed
  }

  /** The indices of the objects that pass the grabber's test, ascending. */
  function GrabCandidates(views: seq<View>, pos: Vec, heading: real, trig: Trig): (r: seq<nat>)
    ensures forall k :: 0 <= k < |r| ==> r[k] < |views| && GrabCandidate(views[r[k]], pos, heading, trig)
    ensures forall i :: 0 <= i < |views| && GrabCandidate(views[i], pos, heading, trig) ==> i in r
    ensures forall k, l :: 0 <= k < l < |r| ==> r[k] < r[l]
  {
    if views == [] then []
    else
      var n := |views| - 1;
      GrabCandidates(views[..n], pos, heading, trig)
        + (if GrabCandidate(views[n], pos, heading, trig) then [n] else [])
  }

  /** The grabber takes the first passing object in list order. */
  lemma FirstCandidate(views: seq<View>, pos: Vec, heading: real, trig: Trig)
    ensures GrabCandidates(views, pos, heading, trig) == []
      <==> forall i :: 0 <= i < |views| ==> !GrabCandidate(views[i], pos, heading, trig)
    ensures var r := GrabCandidates(views, pos, heading, trig);
      r != [] ==> GrabCandidate(views[r[0]], pos, heading, trig)
                  && forall i :: 0 <= i < r[0] ==> !GrabCandidate(views[i], pos, heading, trig)
  {
  }

  /** Calls grab() on a grabbable object. */
  method GrabObject(o: Obj)
    requires o.Grabbable()
    modifies o.Ref()
    ensures Snap(o) == old(Snap(o)).(grabbed := true) && o.Heading() == old(o.Heading())
  {
    match o
    case MarkerToken(t) => t.Grab();
    case TcrToken(t) => t.Grab();
    case Tcr2018Token(t) => t.Grab();
  }

  /** Calls release() on a grabbable object. */
  method ReleaseObject(o: Obj)
    requires o.Grabbable()
    modifies o.Ref()
    ensures Snap(o) == old(Snap(o)).(grabbed := false) && o.Heading() == old(o.Heading())
  {
    match o
    case MarkerToken(t) => t.Release();
    case TcrToken(t) => t.Release();
    case Tcr2018Token(t) => t.Release();
  }

  /* ------------------------------------------------------------------ */
  /* The robot                                                           */

  class SimRobot {
    const arena: Arena
    /** The body: position (also its world centre), angle and velocity. */
    var position: Vec
    var angle: real
    var velocity: Vec
    var zone: int
    /** `motors`: a list holding one board, which tick never reads. */
    const motors: seq<MotorBoard>
    /** `motor_board`: the board tick reads. */
    const motorBoard: MotorBoard
    var servoBoard: ServoBoard?
    var camera: Camera?
    var holding: Option<Obj>
    var holdingJoint: Option<Joint>

    ghost predicate Valid()
      reads this, motorBoard
    {
      motorBoard.Valid()
      && (holding.Some? ==> holding.value.Grabbable())
      && (holding.Some? && holding.value.HasBody() ==> holdingJoint.Some?)
    }

    /** Builds the robot in the simulator's arena and appends it to the
        arena's objects. The base constructor's location and heading writes
        are dropped, since the body does not exist yet. */
    constructor (arena: Arena)
      modifies arena.objects
      ensures Valid() && this.arena == arena
      ensures position == Vec(0.0, 0.0) && angle == 0.0 && velocity == Vec(0.0, 0.0) && zone == 0
      ensures holding.None?
      ensures |motors| == 1 && fresh(motors[0]) && motors[0].motors == [BRAKE, BRAKE]
      ensures fresh(motorBoard) && motorBoard.motors == [BRAKE, BRAKE] && motorBoard != motors[0]
      ensures servoBoard != null && fresh(servoBoard) && servoBoard.robot == this
      ensures camera != null && fresh(camera) && camera.robot == this
      ensures arena.objects.items == old(arena.objects.items) + [Robot(this)]
    {
      zone := 0;
      this.arena := arena;
      var board := new MotorBoard();
      motors := [board];
      position, angle, velocity := Vec(0.0, 0.0), 0.0, Vec(0.0, 0.0);
      motorBoard := new MotorBoard();
      holding, holdingJoint := None, None;
      new;
      arena.objects.Append(Robot(this));
      servoBoard := new ServoBoard(this);
      camera := new Camera(this);
    }

    function Location(): Vec
      reads this
    {
      position
    }

    function Heading(): real
      reads this
    {
      angle
    }

    method SetLocation(p: Vec)
      modifies this
      ensures Location() == p && Heading() == old(Heading()) && velocity == old(velocity)
      ensures holding == old(holding) && holdingJoint == old(holdingJoint)
    {
      position := p;
    }

    method SetHeading(h: real)
      modifies this
      ensures Heading() == h && Location() == old(Location()) && velocity == old(velocity)
      ensures holding == old(holding) && holdingJoint == old(holdingJoint)
    {
      angle := h;
    }

    /** Drives each wheel from motor_board in turn, then kills the lateral
        velocity. */
    method Tick(dt: real)
      requires Valid()
      modifies arena.world
      ensures arena.world.log == old(arena.world.log) + TickCalls(this, motorBoard.M0(), motorBoard.M1())
      ensures arena.world.joints == old(arena.world.joints)
    {
      var halfWidth := ROBOT_WIDTH * 0.5;
      if motorBoard.M0() == COAST {
        arena.world.Apply(WheelCoast(this, -halfWidth));
      } else {
        arena.world.Apply(WheelDrive(this, -halfWidth, motorBoard.M0().v * 100.0));
      }
      if motorBoard.M1() == COAST {
        arena.world.Apply(WheelCoast(this, halfWidth));
      } else {
        arena.world.Apply(WheelDrive(this, halfWidth, motorBoard.M1().v * 100.0));
      }
      arena.world.Apply(KillLateral(this));
    }

    /** Casts the 21-ray fan from the body's centre and reports the nearest
        hit's distance, or None when nothing was hit. */
    method SendUltrasoundPing(angleOffset: real, trig: Trig, rayCast: (Vec, Vec) -> seq<RayHit>)
      returns (r: Option<real>)
      ensures r == PingDistance(FanHits(position, angle, angleOffset, trig, rayCast, |SpreadOffsets()|))
      ensures r.None? <==> FanHits(position, angle, angleOffset, trig, rayCast, |SpreadOffsets()|) == []
    {
      var centre := position;
      var offsets := SpreadOffsets();
      var cast: seq<RayHit> := [];
      var i := 0;
      while i < |offsets|
        invariant 0 <= i <= |offsets|
        invariant cast == FanHits(centre, angle, angleOffset, trig, rayCast, i)
      {
        var castAngle := angle + angleOffset + offsets[i];
        cast := cast + rayCast(centre, CastTarget(centre, castAngle, trig));
        i := i + 1;
      }
      if cast == [] {
        return None;
      }
      cast := SortBy(cast, Fraction);
      r := Some(cast[0].fraction * CAST_RANGE);
    }

    /** Grabs the first object in arena order that passes the grabber's
        test: welds it to the grabber when it has a body and sets its
        grabbed flag. */
    method Grab(trig: Trig) returns (r: Result<bool>)
      requires Valid()
      modifies this, arena.world, Footprint(arena.objects.items)
      ensures Valid()
      ensures arena.objects.items == old(arena.objects.items)
      ensures position == old(position) && angle == old(angle) && velocity == old(velocity)
      ensures arena.world.log == old(arena.world.log)
      ensures zone == old(zone) && servoBoard == old(servoBoard) && camera == old(camera)
      ensures r != Success(true) ==> unchanged(this) && unchanged(arena.world)
      ensures r != Success(true) ==> unchanged(Footprint(arena.objects.items))
      ensures r == Success(true) && holding.Some? ==>
        unchanged(Footprint(arena.objects.items) - {this, holding.value.Ref()})
      ensures old(holding).Some? ==>
        r == Failure(AlreadyHolding) && holding == old(holding) && holdingJoint == old(holdingJoint)
        && arena.world.joints == old(arena.world.joints)
        && Snaps(arena.objects.items) == old(Snaps(arena.objects.items))
      ensures old(holding).None? ==>
        var cands := GrabCandidates(old(Snaps(arena.objects.items)), old(position), old(angle), trig);
        (cands == [] ==>
          r == Success(false) && holding.None? && holdingJoint == old(holdingJoint)
          && arena.world.joints == old(arena.world.joints)
          && Snaps(arena.objects.items) == old(Snaps(arena.objects.items)))
        && (cands != [] ==>
          var target := arena.objects.items[cands[0]];
          r == Success(true) && holding == Some(target) && target.Heading() == old(target.Heading())
          && Snaps(arena.objects.items) == MarkGrabbed(arena.objects.items, old(Snaps(arena.objects.items)), target, true)
          && (target.HasBody() ==>
                holdingJoint.Some? && fresh(holdingJoint.value)
                && holdingJoint.value.a == this && holdingJoint.value.b == target.Ref()
                && holdingJoint.value.anchorA == Vec(GRABBER_OFFSET, 0.0)
                && holdingJoint.value.anchorB == Vec(0.0, 0.0)
                && arena.world.joints == old(arena.world.joints) + {holdingJoint.value})
          && (!target.HasBody() ==>
                holdingJoint == old(holdingJoint) && arena.world.joints == old(arena.world.joints)))
    {
      if holding.Some? {
        return Failure(AlreadyHolding);
      }
      var items := arena.objects.items;
      var views := Snaps(items);
      var cands := GrabCandidates(views, position, angle, trig);
      if cands == [] {
        return Success(false);
      }
      var target := items[cands[0]];
      Attach(target);
      r := Success(true);
      ghost var after := Snaps(items);
      assert forall i :: 0 <= i < |items| ==> after[i] == MarkGrabbed(items, views, target, true)[i];
    }

    /** Holds target: welds it to the grabber when it has a body, then
        calls its grab(). */
    method Attach(target: Obj)
      requires Valid() && holding.None? && target.Grabbable()
      modifies this, arena.world, target.Ref()
      ensures Valid() && holding == Some(target)
      ensures arena.objects.items == old(arena.objects.items)
      ensures position == old(position) && angle == old(angle) && velocity == old(velocity)
      ensures arena.world.log == old(arena.world.log)
      ensures Snap(target) == old(Snap(target)).(grabbed := true) && target.Heading() == old(target.Heading())
      ensures forall i :: 0 <= i < |arena.objects.items| && arena.objects.items[i] != target ==>
        Snap(arena.objects.items[i]) == old(Snap(arena.objects.items[i]))
      ensures zone == old(zone) && servoBoard == old(servoBoard) && camera == old(camera)
      ensures unchanged(Footprint(arena.objects.items) - {this, target.Ref()})
      ensures target.HasBody() ==>
        holdingJoint.Some? && fresh(holdingJoint.value)
        && holdingJoint.value.a == this && holdingJoint.value.b == target.Ref()
        && holdingJoint.value.anchorA == Vec(GRABBER_OFFSET, 0.0)
        && holdingJoint.value.anchorB == Vec(0.0, 0.0)
        && arena.world.joints == old(arena.world.joints) + {holdingJoint.value}
      ensures !target.HasBody() ==>
        holdingJoint == old(holdingJoint) && arena.world.joints == old(arena.world.joints)
    {
      holding := Some(target);
      if target.HasBody() {
        var j := arena.world.CreateWeldJoint(this, target.Ref(), Vec(GRABBER_OFFSET, 0.0), Vec(0.0, 0.0));
        holdingJoint := Some(j);
      }
      GrabObject(target);
      forall i | 0 <= i < |arena.objects.items| && arena.objects.items[i] != target
        ensures Snap(arena.objects.items[i]) == old(Snap(arena.objects.items[i]))
      {
        assert arena.objects.items[i].Ref() != target.Ref();
      }
    }

    /** Releases what is held: clears its grabbed flag, destroys the weld
        when it has a body, and forgets it. */
    method Release() returns (r: bool)
      requires Valid()
      modifies this, arena.world, if holding.Some? then {holding.value.Ref()} else {}
      ensures Valid()
      ensures arena.objects.items == old(arena.objects.items)
      ensures r == old(holding).Some?
      ensures holding.None?
      ensures position == old(position) && angle == old(angle) && velocity == old(velocity)
      ensures arena.world.log == old(arena.world.log)
      ensures zone == old(zone) && servoBoard == old(servoBoard) && camera == old(camera)
      ensures old(holding).None? ==> unchanged(this) && unchanged(arena.world)
      ensures old(holding).Some? ==> var held := old(holding).value; held.Heading() == old(held.Heading())
      ensures old(holding).None? ==> unchanged(Footprint(arena.objects.items))
      ensures old(holding).Some? ==> unchanged(Footprint(arena.objects.items) - {this, old(holding).value.Ref()})
      ensures old(holding).None? ==>
        holdingJoint == old(holdingJoint) && arena.world.joints == old(arena.world.joints)
        && Snaps(arena.objects.items) == old(Snaps(arena.objects.items))
      ensures old(holding).Some? ==>
        Snaps(arena.objects.items)
          == MarkGrabbed(arena.objects.items, old(Snaps(arena.objects.items)), old(holding).value, false)
      ensures old(holding).Some? && old(holding).value.HasBody() ==>
        holdingJoint.None? && arena.world.joints == old(arena.world.joints) - {old(holdingJoint).value}
      ensures old(holding).Some? && !old(holding).value.HasBody() ==>
        holdingJoint == old(holdingJoint) && arena.world.joints == old(arena.world.joints)
    {
      var items := arena.objects.items;
      ghost var before := Snaps(items);
      if holding.None? {
        return false;
      }
      ghost var held := holding.value;
      Detach();
      r := true;
      ghost var after := Snaps(items);
      assert forall i :: 0 <= i < |items| ==> after[i] == MarkGrabbed(items, before, held, false)[i];
    }

    /** Lets go of what is held: calls its release(), then destroys the
        weld when it has a body. */
    method Detach()
      requires Valid() && holding.Some?
      modifies this, arena.world, holding.value.Ref()
      ensures Valid() && holding.None?
      ensures arena.objects.items == old(arena.objects.items)
      ensures position == old(position) && angle == old(angle) && velocity == old(velocity)
      ensures arena.world.log == old(arena.world.log)
      ensures Snap(old(holding).value) == old(Snap(holding.value)).(grabbed := false)
      ensures var held := old(holding).value; held.Heading() == old(held.Heading())
      ensures forall i :: 0 <= i < |arena.objects.items| && arena.objects.items[i] != old(holding).value ==>
        Snap(arena.objects.items[i]) == old(Snap(arena.objects.items[i]))
      ensures zone == old(zone) && servoBoard == old(servoBoard) && camera == old(camera)
      ensures unchanged(Footprint(arena.objects.items) - {this, old(holding).value.Ref()})
      ensures old(holding).value.HasBody() ==>
        holdingJoint.None? && arena.world.joints == old(arena.world.joints) - {old(holdingJoint).value}
      ensures !old(holding).value.HasBody() ==>
        holdingJoint == old(holdingJoint) && arena.world.joints == old(arena.world.joints)
    {
      var held := holding.value;
      ReleaseObject(held);
      if held.HasBody() {
        arena.world.DestroyJoint(holdingJoint.value);
        holdingJoint := None;
      }
      holding := None;
      forall i | 0 <= i < |arena.objects.items| && arena.objects.items[i] != held
        ensures Snap(arena.objects.items[i]) == old(Snap(arena.objects.items[i]))
      {
        assert arena.objects.items[i].Ref() != held.Ref();
      }
    }
  }

  /** A grab that succeeds, a release, and a second grab of the same object,
      which succeeds again since release cleared its flag. */
  method GrabReleaseGrab(robot: SimRobot, trig: Trig)
    returns (first: Result<bool>, released: bool, second: Result<bool>)
    requires robot.Valid() && robot.holding.None?
    requires GrabCandidates(Snaps(robot.arena.objects.items), robot.position, robot.angle, trig) != []
    modifies robot, robot.arena.world, Footprint(robot.arena.objects.items)
    ensures first == Success(true) && released && second == Success(true)
    ensures robot.holding == old(Some(robot.arena.objects.items[
      GrabCandidates(Snaps(robot.arena.objects.items), robot.position, robot.angle, trig)[0]]))
  {
    ghost var items := robot.arena.objects.items;
    ghost var views := Snaps(items);
    ghost var cands := GrabCandidates(views, robot.position, robot.angle, trig);
    ghost var target := items[cands[0]];
    first := robot.Grab(trig);
    assert robot.holding == Some(target);
    ghost var held := Snaps(items);
    assert held == MarkGrabbed(items, views, target, true);
    released := robot.Release();
    assert Snaps(items) == MarkGrabbed(items, held, target, false);
    forall i | 0 <= i < |items| && items[i] == target ensures !views[i].grabbed {
      assert views[i] == views[cands[0]];
    }
    MarkGrabbedRestores(items, views, target);
    assert Snaps(items) == views;
    second := robot.Grab(trig);
  }

  /* ------------------------------------------------------------------ */
  /* Servo board                                                         */

  class ServoBoard {
    const robot: SimRobot

    constructor (robot: SimRobot)
      ensures this.robot == robot
    {
      this.robot := robot;
    }

    /** Pings in the direction of the module on the given pins; 0.0 for
        pins without a module and for a ping that hears no echo. */
    method ReadUltrasound(trigger: int, echo: int, trig: Trig, rayCast: (Vec, Vec) -> seq<RayHit>)
      returns (r: real)
      ensures UltrasoundOffset(trigger, echo).None? ==> r == 0.0
      ensures UltrasoundOffset(trigger, echo).Some? ==>
        var ping := PingDistance(FanHits(robot.position, robot.angle, UltrasoundOffset(trigger, echo).value,
                                         trig, rayCast, |SpreadOffsets()|));
        r == if ping.None? then 0.0 else ping.value
    {
      var offset := UltrasoundOffset(trigger, echo);
      if offset.None? {
        return 0.0;
      }
      var result := robot.SendUltrasoundPing(offset.value, trig, rayCast);
      if result.None? {
        return 0.0;
      }
      return result.value;
    }
  }

  /* ------------------------------------------------------------------ */
  /* Camera                                                              */

  /** The ids the game gives a size, and the wall and token id sets. */
  datatype MarkerTable = MarkerTable(sizes: map<int, real>, wall: set<int>, token: set<int>)

  function Bearing(loc: Vec, pos: Vec, heading: real, trig: Trig): real {
    trig.atan2(loc.y - pos.y, loc.x - pos.x) - heading
  }

  predicate Moving(velocity: Vec, trig: Trig) {
    trig.hypot(velocity.x, velocity.y) > MOTION_BLUR_SPEED_THRESHOLD
  }

  /** Nothing is seen while the observer moves, nor a robot that moves. */
  predicate MotionBlurred(v: View, observerVelocity: Vec, trig: Trig) {
    Moving(observerVelocity, trig) || (v.isRobot && Moving(v.velocity, trig))
  }

  /** The camera's filter: marked, raw bearing difference strictly inside
      the field of view, and not blurred. */
  predicate InView(v: View, pos: Vec, heading: real, observerVelocity: Vec, trig: Trig) {
    v.markerId.Some?
    && -HALF_FOV_WIDTH < Bearing(v.location, pos, heading, trig) < HALF_FOV_WIDTH
    && !MotionBlurred(v, observerVelocity, trig)
  }

  /** The views that pass the camera's filter, in list order. */
  function Visible(views: seq<View>, pos: Vec, heading: real, observerVelocity: Vec, trig: Trig): (r: seq<View>)
    ensures forall v :: v in r ==> v in views && InView(v, pos, heading, observerVelocity, trig)
    ensures forall v :: v in views && InView(v, pos, heading, observerVelocity, trig) ==> v in r
  {
    if views == [] then []
    else
      var n := |views| - 1;
      Visible(views[..n], pos, heading, observerVelocity, trig)
        + (if InView(views[n], pos, heading, observerVelocity, trig) then [views[n]] else [])
  }

  /** Filtering one more view appends it when it is in view. */
  lemma VisibleSnoc(s: seq<View>, x: View, pos: Vec, heading: real, observerVelocity: Vec, trig: Trig)
    ensures Visible(s + [x], pos, heading, observerVelocity, trig)
      == Visible(s, pos, heading, observerVelocity, trig)
         + (if InView(x, pos, heading, observerVelocity, trig) then [x] else [])
  {
    assert (s + [x])[..|s|] == s;
  }

  /** Each view in view is kept as often as the list holds it, and no
      other view is kept. */
  lemma {:induction false} VisibleCount(views: seq<View>, pos: Vec, heading: real, observerVelocity: Vec,
                                        trig: Trig, v: View)
    ensures multiset(Visible(views, pos, heading, observerVelocity, trig))[v]
      == if InView(v, pos, heading, observerVelocity, trig) then multiset(views)[v] else 0
    decreases |views|
  {
    if views != [] {
      var n := |views| - 1;
      var init := views[..n];
      assert views == init + [views[n]];
      VisibleSnoc(init, views[n], pos, heading, observerVelocity, trig);
      VisibleCount(init, pos, heading, observerVelocity, trig, v);
    }
  }

  /** Filtering a concatenation filters each part and keeps them in order,
      so the visible views keep the arena's order. */
  lemma {:induction false} VisibleAppend(a: seq<View>, b: seq<View>, pos: Vec, heading: real,
                                         observerVelocity: Vec, trig: Trig)
    ensures Visible(a + b, pos, heading, observerVelocity, trig)
      == Visible(a, pos, heading, observerVelocity, trig) + Visible(b, pos, heading, observerVelocity, trig)
    decreases |b|
  {
    if b == [] {
      assert a + b == a;
    } else {
      var n := |b| - 1;
      var init := b[..n];
      var x := b[n];
      assert b == init + [x];
      assert a + b == (a + init) + [x];
      VisibleSnoc(a + init, x, pos, heading, observerVelocity, trig);
      VisibleSnoc(init, x, pos, heading, observerVelocity, trig);
      VisibleAppend(a, init, pos, heading, observerVelocity, trig);
      var va := Visible(a, pos, heading, observerVelocity, trig);
      var vi := Visible(init, pos, heading, observerVelocity, trig);
      var last := if InView(x, pos, heading, observerVelocity, trig) then [x] else [];
      assert (va + vi) + last == va + (vi + last);
    }
  }

  /** The Marker the camera reports for a visible object. */
  function ToMarker(v: View, pos: Vec, heading: real, trig: Trig, table: MarkerTable): Marker
    requires v.markerId.Some? && v.markerId.value in table.sizes
  {
    var rel := Sub(v.location, pos);
    var rotY := trig.atan2(rel.y, rel.x) - heading;
    var id := v.markerId.value;
    Marker(id, table.sizes[id], PolarCoord(trig.hypot(rel.x, rel.y), rotY, Degrees(rotY)),
           "NOT SUPPORTED", "NOT SUPPORTED", id in table.wall, id in table.token)
  }

  ghost predicate AllSized(vs: seq<View>, table: MarkerTable) {
    forall v :: v in vs ==> v.markerId.Some? && v.markerId.value in table.sizes
  }

  function ToMarkers(vs: seq<View>, pos: Vec, heading: real, trig: Trig, table: MarkerTable): (r: seq<Marker>)
    requires AllSized(vs, table)
    ensures |r| == |vs|
    ensures forall i :: 0 <= i < |vs| ==> r[i] == ToMarker(vs[i], pos, heading, trig, table)
  {
    seq(|vs|, i requires 0 <= i < |vs| => ToMarker(vs[i], pos, heading, trig, table))
  }

  function Distance(m: Marker): real { m.polar.distanceMeters }

  /** The camera's pipeline on a snapshot of the arena: filter, map to
      markers (a KeyError when a visible id has no size), and sort by
      distance, stably. */
  function SeeMarkers(views: seq<View>, pos: Vec, heading: real, observerVelocity: Vec, trig: Trig,
                      table: MarkerTable): (r: Result<seq<Marker>>)
    ensures r.Failure? <==> exists v :: v in views && InView(v, pos, heading, observerVelocity, trig)
                                        && v.markerId.value !in table.sizes
    ensures r.Failure? ==> r.error == KeyError
    ensures r.Success? ==>
      var ms := ToMarkers(Visible(views, pos, heading, observerVelocity, trig), pos, heading, trig, table);
      SortedBy(r.value, Distance) && multiset(r.value) == multiset(ms)
      && forall d :: WithKey(r.value, Distance, d) == WithKey(ms, Distance, d)
  {
    var visible := Visible(views, pos, heading, observerVelocity, trig);
    if exists v :: v in visible && v.markerId.value !in table.sizes then Failure(KeyError)
    else
      var ms := ToMarkers(visible, pos, heading, trig, table);
      SortByFacts(ms, Distance);
      Success(SortBy(ms, Distance))
  }

  /** Nothing passes the filter when no object is in view. */
  lemma {:induction false} VisibleEmpty(views: seq<View>, pos: Vec, heading: real, observerVelocity: Vec, trig: Trig)
    requires forall v :: v in views ==> !InView(v, pos, heading, observerVelocity, trig)
    ensures Visible(views, pos, heading, observerVelocity, trig) == []
    decreases |views|
  {
    if views != [] {
      var n := |views| - 1;
      assert forall v :: v in views[..n] ==> v in views;
      VisibleEmpty(views[..n], pos, heading, observerVelocity, trig);
      assert views[n] in views;
    }
  }

  /** A marker made from visible objects comes from one of them, in view. */
  lemma MarkerFromVisible(views: seq<View>, visible: seq<View>, pos: Vec, heading: real,
                          observerVelocity: Vec, trig: Trig, table: MarkerTable, m: Marker)
    requires forall v :: v in visible ==> v in views && InView(v, pos, heading, observerVelocity, trig)
    requires forall v :: v in views && InView(v, pos, heading, observerVelocity, trig) ==>
      v.markerId.value in table.sizes
    requires AllSized(visible, table)
    requires m in ToMarkers(visible, pos, heading, trig, table)
    ensures -HALF_FOV_WIDTH < m.polar.rotYRad < HALF_FOV_WIDTH
    ensures exists v :: v in views && InView(v, pos, heading, observerVelocity, trig)
                        && m == ToMarker(v, pos, heading, trig, table)
  {
    var ms := ToMarkers(visible, pos, heading, trig, table);
    var i :| 0 <= i < |ms| && ms[i] == m;
    var v := visible[i];
    assert v in visible;
    assert m.polar.rotYRad == Bearing(v.location, pos, heading, trig);
  }

  /** A moving observer sees nothing. */
  lemma SeeWhileMoving(views: seq<View>, pos: Vec, heading: real, observerVelocity: Vec, trig: Trig,
                       table: MarkerTable)
    requires Moving(observerVelocity, trig)
    ensures SeeMarkers(views, pos, heading, observerVelocity, trig, table) == Success([])
  {
    VisibleEmpty(views, pos, heading, observerVelocity, trig);
  }

  /** Every reported marker comes from a marked object in view, with its id,
      distance and bearing; so its bearing lies strictly inside the field
      of view. */
  lemma SeeOnlyInView(views: seq<View>, pos: Vec, heading: real, observerVelocity: Vec, trig: Trig,
                      table: MarkerTable)
    requires SeeMarkers(views, pos, heading, observerVelocity, trig, table).Success?
    ensures forall m :: m in SeeMarkers(views, pos, heading, observerVelocity, trig, table).value ==>
      -HALF_FOV_WIDTH < m.polar.rotYRad < HALF_FOV_WIDTH
      && exists v :: v in views && InView(v, pos, heading, observerVelocity, trig)
                     && m == ToMarker(v, pos, heading, trig, table)
  {
    var visible := Visible(views, pos, heading, observerVelocity, trig);
    var ms := ToMarkers(visible, pos, heading, trig, table);
    var r := SeeMarkers(views, pos, heading, observerVelocity, trig, table).value;
    forall m | m in r
      ensures -HALF_FOV_WIDTH < m.polar.rotYRad < HALF_FOV_WIDTH
      ensures exists v :: v in views && InView(v, pos, heading, observerVelocity, trig)
                          && m == ToMarker(v, pos, heading, trig, table)
    {
      assert m in multiset(r);
      assert m in multiset(ms);
      MarkerFromVisible(views, visible, pos, heading, observerVelocity, trig, table, m);
    }
  }

  /** Every marked object in view is reported. */
  lemma SeeAllInView(views: seq<View>, pos: Vec, heading: real, observerVelocity: Vec, trig: Trig,
                     table: MarkerTable)
    requires SeeMarkers(views, pos, heading, observerVelocity, trig, table).Success?
    ensures forall v :: v in views && InView(v, pos, heading, observerVelocity, trig) ==>
      v.markerId.value in table.sizes
      && ToMarker(v, pos, heading, trig, table) in SeeMarkers(views, pos, heading, observerVelocity, trig, table).value
  {
    var visible := Visible(views, pos, heading, observerVelocity, trig);
    var ms := ToMarkers(visible, pos, heading, trig, table);
    var r := SeeMarkers(views, pos, heading, observerVelocity, trig, table).value;
    forall v | v in views && InView(v, pos, heading, observerVelocity, trig)
      ensures v.markerId.value in table.sizes
      ensures ToMarker(v, pos, heading, trig, table) in r
    {
      assert v in visible;
      var i :| 0 <= i < |visible| && visible[i] == v;
      assert ms[i] in multiset(ms);
      assert ms[i] in multiset(r);
    }
  }

  class Camera {
    const robot: SimRobot

    constructor (robot: SimRobot)
      ensures this.robot == robot
    {
      this.robot := robot;
    }

    /** The markers the robot sees now, nearest first. The robot is not
        excluded by identity; it is never reported because it has no marker. */
    function See(trig: Trig, table: MarkerTable): Result<seq<Marker>>
      reads robot, robot.arena.objects, Footprint(robot.arena.objects.items)
    {
      SeeMarkers(Snaps(robot.arena.objects.items), robot.position, robot.angle, robot.velocity, trig, table)
    }
  }
}
