/**
 * The eye-bot of the circle example: it takes off to 3 m above its
 * starting point (the circle centre), moves out to the circle, visits 20
 * waypoints along it one per step, flies back to the centre and lands.
 * The state machine is stated as a function on the controller's state,
 * and the controller's methods are proved to follow it.
 */
module EyeBotCircle {
  import opened Geometry

  datatype State = Start | TakingOff | LeavingCircleCenter | MovingAlongCircle | GoingToCenter | Landing

  const Altitude: real := 3.0
  const CircleRadius: real := 2.0
  const CircleWaypoints: nat := 20
  const ProximityTolerance: real := 0.01

  /** A target counts as reached when it is closer than the tolerance, compared on squared distances. */
  predicate Reached(target: Vec3, position: Vec3) {
    SqDist3(target, position) < ProximityTolerance * ProximityTolerance
  }

  /**
   * The controller's state: its behaviour state, the circle centre, the
   * current target, the waypoint counter, and the last position commanded.
   */
  datatype Circle = Circle(state: State, center: Vec3, target: Vec3, waypoint: nat, command: Vec3)

  /** Waypoint `k` on the circle; `unitAt(k)` is the unit vector at angle k·2π/20. */
  function WaypointTarget(center: Vec3, k: nat, unitAt: nat -> Vec2): Vec3 {
    var u := unitAt(k);
    Add3(Vec3(CircleRadius * u.x, CircleRadius * u.y, 0.0), center)
  }

  /** Reset: take off to the altitude above the current position, which becomes the circle centre. */
  function ResetCircle(c: Circle, position: Vec3): (r: Circle)
    ensures r.state == TakingOff && r.target == r.center && r.command == r.target
    ensures r.center == Vec3(position.x, position.y, position.z + Altitude)
    ensures r.waypoint == c.waypoint
  {
    var center := Add3(position, Vec3(0.0, 0.0, Altitude));
    c.(state := TakingOff, center := center, target := center, command := center)
  }

  /** Taking off: once the target is reached, head for a point on the circle, 2 m away along x. */
  function TakeOffStep(c: Circle, position: Vec3): Circle {
    if Reached(c.target, position) then
      var t := Add3(position, Vec3(CircleRadius, 0.0, 0.0));
      c.(state := LeavingCircleCenter, target := t, command := t)
    else c
  }

  /** Leaving the centre: once on the circle, start at waypoint 0. */
  function LeaveStep(c: Circle, position: Vec3): Circle {
    if Reached(c.target, position) then c.(state := MovingAlongCircle, waypoint := 0)
    else c
  }

  /**
   * Moving along the circle, without waiting to arrive: each step targets
   * the next waypoint; after the last one, head back to the centre.
   */
  function MoveStep(c: Circle, unitAt: nat -> Vec2): Circle {
    if c.waypoint >= CircleWaypoints then
      c.(state := GoingToCenter, target := c.center, command := c.center)
    else
      var t := WaypointTarget(c.center, c.waypoint, unitAt);
      c.(target := t, command := t, waypoint := c.waypoint + 1)
  }

  /** Going to the centre: once there, land straight below. */
  function GoToCenterStep(c: Circle, position: Vec3): Circle {
    if Reached(c.target, position) then
      var t := Vec3(position.x, position.y, 0.0);
      c.(state := Landing, target := t, command := t)
    else c
  }

  /** One control step. Landing does nothing, and so does the start state, which has no behaviour. */
  function Step(c: Circle, position: Vec3, unitAt: nat -> Vec2): Circle {
    match c.state
    case TakingOff => TakeOffStep(c, position)
    case LeavingCircleCenter => LeaveStep(c, position)
    case MovingAlongCircle => MoveStep(c, unitAt)
    case GoingToCenter => GoToCenterStep(c, position)
    case Landing => c
    case Start => c
  }

  /** The state that follows each state. */
  function Successor(s: State): State {
    match s
    case Start => Start
    case TakingOff => LeavingCircleCenter
    case LeavingCircleCenter => MovingAlongCircle
    case MovingAlongCircle => GoingToCenter
    case GoingToCenter => Landing
    case Landing => Landing
  }

  /** The waypoint counter never exceeds the number of waypoints while moving along the circle. */
  predicate WaypointInRange(c: Circle) {
    c.state == MovingAlongCircle ==> c.waypoint <= CircleWaypoints
  }

  /**
   * A step either stays or moves to the successor state; the states that
   * wait for arrival move exactly when the target is reached; landing is
   * absorbing; and the waypoint bound is kept.
   */
  lemma StepTransitions(c: Circle, position: Vec3, unitAt: nat -> Vec2)
    requires WaypointInRange(c)
    ensures var n := Step(c, position, unitAt);
      (n.state == c.state || n.state == Successor(c.state))
      && (c.state in {TakingOff, LeavingCircleCenter, GoingToCenter} ==>
            (n.state == Successor(c.state) <==> Reached(c.target, position)))
      && (c.state == Landing ==> n == c)
      && WaypointInRange(n)
  {
  }

  /** The start state is never entered again once left. */
  lemma StartNeverEntered(c: Circle, position: Vec3, unitAt: nat -> Vec2)
    requires c.state != Start
    ensures Step(c, position, unitAt).state != Start
  {
  }

  /** `n` steps, with the eye-bot at `positions(i)` at step `i`. */
  function Run(c: Circle, n: nat, positions: nat -> Vec3, unitAt: nat -> Vec2): Circle
    decreases n
  {
    if n == 0 then c else Step(Run(c, n - 1, positions, unitAt), positions(n - 1), unitAt)
  }

  /**
   * Starting along the circle at waypoint 0, the eye-bot spends exactly 20
   * steps on the circle: after k ≤ 20 steps it is still on it with the
   * counter at k, and the 21st step sends it back to the centre.
   */
  lemma {:induction false} CircleLap(c: Circle, k: nat, positions: nat -> Vec3, unitAt: nat -> Vec2)
    requires c.state == MovingAlongCircle && c.waypoint == 0 && k <= CircleWaypoints
    ensures Run(c, k, positions, unitAt).state == MovingAlongCircle
    ensures Run(c, k, positions, unitAt).waypoint == k
    ensures Run(c, k, positions, unitAt).center == c.center
    ensures k == CircleWaypoints ==>
      Run(c, k + 1, positions, unitAt).state == GoingToCenter
      && Run(c, k + 1, positions, unitAt).target == c.center
  {
    if k > 0 {
      CircleLap(c, k - 1, positions, unitAt);
    }
    if k == CircleWaypoints {
      assert Run(c, k + 1, positions, unitAt) == MoveStep(Run(c, k, positions, unitAt), unitAt);
    }
  }

  class EyeBotCircle {
    var state: State
    var center: Vec3
    var target: Vec3
    /** Not initialised until the eye-bot reaches the circle. */
    var waypoint: nat
    /** The last position handed to the position actuator. */
    var command: Vec3

    function Snapshot(): Circle
      reads this
    {
      Circle(state, center, target, waypoint, command)
    }

    /** Construction and initialisation, which ends with a reset at the current position. */
    constructor(position: Vec3)
      ensures state == TakingOff && center == Vec3(position.x, position.y, position.z + Altitude)
      ensures target == center && command == center
    {
      var c := Add3(position, Vec3(0.0, 0.0, Altitude));
      state := TakingOff;
      center := c;
      target := c;
      command := c;
    }

    method Reset(position: Vec3)
      modifies this
      ensures Snapshot() == ResetCircle(old(Snapshot()), position)
    {
      state := TakingOff;
      center := Add3(position, Vec3(0.0, 0.0, Altitude));
      target := center;
      command := target;
    }

    method TakeOff(position: Vec3)
      modifies this
      ensures Snapshot() == TakeOffStep(old(Snapshot()), position)
    {
      if Reached(target, position) {
        state := LeavingCircleCenter;
        target := Add3(position, Vec3(CircleRadius, 0.0, 0.0));
        command := target;
      }
    }

    method LeaveCircleCenter(position: Vec3)
      modifies this
      ensures Snapshot() == LeaveStep(old(Snapshot()), position)
    {
      if Reached(target, position) {
        state := MovingAlongCircle;
        waypoint := 0;
      }
    }

    method MoveAlongCircle(unitAt: nat -> Vec2)
      modifies this
      ensures Snapshot() == MoveStep(old(Snapshot()), unitAt)
    {
      if waypoint >= CircleWaypoints {
        state := GoingToCenter;
        target := center;
        command := target;
      } else {
        target := WaypointTarget(center, waypoint, unitAt);
        command := target;
        waypoint := waypoint + 1;
      }
    }

    method GoToCenter(position: Vec3)
      modifies this
      ensures Snapshot() == GoToCenterStep(old(Snapshot()), position)
    {
      if Reached(target, position) {
        state := Landing;
        target := Vec3(position.x, position.y, 0.0);
        command := target;
      }
    }

    /** Landing does nothing. */
    method Land()
      ensures Snapshot() == old(Snapshot())
    {
    }

    method ControlStep(position: Vec3, unitAt: nat -> Vec2)
      modifies this
      ensures Snapshot() == Step(old(Snapshot()), position, unitAt)
    {
      match state
      case TakingOff => TakeOff(position);
      case LeavingCircleCenter => LeaveCircleCenter(position);
      case MovingAlongCircle => MoveAlongCircle(unitAt);
      case GoingToCenter => GoToCenter(position);
      case Landing => Land();
      case Start =>
    }
  }
}
