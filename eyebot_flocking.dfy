/**
 * The eye-bot flocking controller: the eye-bot takes off vertically to an
 * altitude of 3 m and then flocks, moving by the sum of a vector towards
 * the light and a flocking vector computed from the range-and-bearing
 * messages of the eye-bots that already flock. It tells its neighbours its
 * state in byte 0 of its range-and-bearing message.
 */
module EyeBotFlocking {
  import opened Geometry
  import opened Interaction

  datatype State = Start | TakingOff | Flocking

  /** The state as broadcast: START = 0, TAKE_OFF = 1, FLOCK = 2. */
  function StateCode(s: State): (code: nat)
    ensures code < 3
  {
    match s
    case Start => 0
    case TakingOff => 1
    case Flocking => 2
  }

  /** Distance to the target below which the take-off counts as done. */
  const PositioningTolerance: real := 0.01
  const TakeOffAltitude: real := 3.0

  /** A received range-and-bearing message: byte 0 of its payload, its range and its horizontal bearing. */
  datatype Message = Message(data0: nat, range: real, bearing: real)

  datatype FlockingParams = FlockingParams(targetDistance: real, gain: real, exponent: real,
                                           maxInteraction: real)

  /** Only the eye-bots that announce they flock are neighbours. */
  function FromFlockingPeer(): Message -> bool {
    (m: Message) => m.data0 == StateCode(Flocking)
  }

  /** A neighbour pulls or pushes with the Lennard-Jones magnitude of its range, along its bearing. */
  function MessageContribution(lj: real -> real, polar: (real, real) -> Vec2): Message -> Vec2 {
    (m: Message) => polar(lj(m.range), m.bearing)
  }

  /** The target is reached when it is closer than the tolerance, compared on squared distances. */
  predicate Reached(target: Vec3, position: Vec3) {
    SqDist3(target, position) < PositioningTolerance * PositioningTolerance
  }

  class EyeBotFlocking {
    const params: FlockingParams
    var state: State
    var target: Vec3
    /** Byte 0 of the range-and-bearing payload. */
    var broadcast: nat
    /** The last absolute position commanded, and the last relative move. */
    var absoluteCommand: Vec3
    var relativeCommand: Vec3

    /** Construction and initialisation, which ends with a reset. */
    constructor(p: FlockingParams)
      ensures params == p && state == Start && broadcast == StateCode(Start)
      ensures target == Zero3 && absoluteCommand == Zero3 && relativeCommand == Zero3
    {
      params := p;
      state := Start;
      broadcast := StateCode(Start);
      target := Zero3;
      absoluteCommand := Zero3;
      relativeCommand := Zero3;
    }

    /** Reset goes back to the start state and announces it. */
    method Reset()
      modifies this`state, this`broadcast
      ensures state == Start && broadcast == StateCode(Start)
    {
      state := Start;
      broadcast := StateCode(Start);
    }

    /** The flocking mode: the eye-bot moves horizontally by the light vector plus the flocking vector. */
    method Flock(light: seq<PolarReading>, msgs: seq<Message>, lj: real -> real,
                 polar: (real, real) -> Vec2, len: Vec2 -> real)
      requires IsLength(len)
      modifies this`state, this`broadcast, this`relativeCommand
      ensures state == Flocking
      ensures broadcast == if old(state) == Flocking then old(broadcast) else StateCode(Flocking)
      ensures var d := FlockDirection(light, msgs, lj, polar, len);
        relativeCommand == Vec3(d.x, d.y, 0.0)
    {
      if state != Flocking {
        state := Flocking;
        broadcast := StateCode(Flocking);
      }
      var toLight := Interaction.VectorToLight(light, 0.1 * params.maxInteraction, polar, len);
      var flocking := Interaction.FlockingVector(msgs, FromFlockingPeer(), MessageContribution(lj, polar),
                                                 params.maxInteraction, len);
      var d := Add2(toLight, flocking);
      relativeCommand := Vec3(d.x, d.y, 0.0);
    }

    /**
     * The horizontal move of a flocking step: the light vector, a tenth of
     * the maximum interaction long, plus the flocking vector.
     */
    function FlockDirection(light: seq<PolarReading>, msgs: seq<Message>, lj: real -> real,
                            polar: (real, real) -> Vec2, len: Vec2 -> real): (d: Vec2)
      requires IsLength(len)
      reads this
      ensures (forall i :: 0 <= i < |msgs| ==> msgs[i].data0 != StateCode(Flocking)) ==>
        d == TowardLight(PolarSum(light, polar), 0.1 * params.maxInteraction, len)
    {
      Add2(TowardLight(PolarSum(light, polar), 0.1 * params.maxInteraction, len),
           MeanInteraction(msgs, FromFlockingPeer(), MessageContribution(lj, polar), params.maxInteraction, len))
    }

    /**
     * Taking off: on entering the state the target is set above the
     * current position at the take-off altitude, commanded, and announced;
     * once the target is reached the eye-bot flocks in the same step.
     */
    method TakeOff(position: Vec3, light: seq<PolarReading>, msgs: seq<Message>, lj: real -> real,
                   polar: (real, real) -> Vec2, len: Vec2 -> real)
      requires IsLength(len)
      modifies this`state, this`broadcast, this`target, this`absoluteCommand, this`relativeCommand
      ensures old(state) != TakingOff ==>
        target == Vec3(position.x, position.y, TakeOffAltitude) && absoluteCommand == target
      ensures old(state) == TakingOff ==>
        target == old(target) && absoluteCommand == old(absoluteCommand)
      ensures Reached(target, position) ==>
        state == Flocking && broadcast == StateCode(Flocking)
        && var d := FlockDirection(light, msgs, lj, polar, len); relativeCommand == Vec3(d.x, d.y, 0.0)
      ensures !Reached(target, position) ==>
        state == TakingOff && broadcast == (if old(state) == TakingOff then old(broadcast) else StateCode(TakingOff))
        && relativeCommand == old(relativeCommand)
    {
      if state != TakingOff {
        state := TakingOff;
        target := Vec3(position.x, position.y, TakeOffAltitude);
        absoluteCommand := target;
        broadcast := StateCode(TakingOff);
      }
      if Reached(target, position) {
        Flock(light, msgs, lj, polar, len);
      }
    }

    /**
     * One step: the start and take-off states take off, the flocking state
     * flocks. The state never moves back (its code never decreases), and
     * the start state is always left.
     */
    method ControlStep(position: Vec3, light: seq<PolarReading>, msgs: seq<Message>, lj: real -> real,
                       polar: (real, real) -> Vec2, len: Vec2 -> real)
      requires IsLength(len)
      modifies this`state, this`broadcast, this`target, this`absoluteCommand, this`relativeCommand
      ensures StateCode(state) >= StateCode(old(state)) && state != Start
      ensures old(state) == Flocking ==>
        state == Flocking && broadcast == old(broadcast)
        && target == old(target) && absoluteCommand == old(absoluteCommand)
        && var d := FlockDirection(light, msgs, lj, polar, len); relativeCommand == Vec3(d.x, d.y, 0.0)
      ensures old(state) == Start ==>
        target == Vec3(position.x, position.y, TakeOffAltitude) && absoluteCommand == target
      ensures old(state) == TakingOff ==>
        target == old(target) && absoluteCommand == old(absoluteCommand)
      ensures old(state) != Flocking && Reached(target, position) ==>
        state == Flocking && broadcast == StateCode(Flocking)
        && var d := FlockDirection(light, msgs, lj, polar, len); relativeCommand == Vec3(d.x, d.y, 0.0)
      ensures old(state) != Flocking && !Reached(target, position) ==>
        state == TakingOff && broadcast == (if old(state) == TakingOff then old(broadcast) else StateCode(TakingOff))
        && relativeCommand == old(relativeCommand)
    {
      match state
      case Start => TakeOff(position, light, msgs, lj, polar, len);
      case TakingOff => TakeOff(position, light, msgs, lj, polar, len);
      case Flocking => Flock(light, msgs, lj, polar, len);
    }
  }

  /**
   * Taking off from the start straight below the take-off altitude, within
   * the tolerance, hands over to flocking in the same step.
   */
  lemma TakeOffAtAltitude(position: Vec3)
    requires -0.01 < position.z - TakeOffAltitude < 0.01
    ensures Reached(Vec3(position.x, position.y, TakeOffAltitude), position)
  {
    var dz := TakeOffAltitude - position.z;
    assert SqDist3(Vec3(position.x, position.y, TakeOffAltitude), position) == dz * dz;
    if dz >= 0.0 {
      assert dz * dz <= dz * 0.01 < 0.01 * 0.01;
    } else {
      assert dz * dz == (-dz) * (-dz) <= (-dz) * 0.01 < 0.01 * 0.01;
    }
  }
}
