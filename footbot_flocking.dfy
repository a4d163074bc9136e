/**
 * The foot-bot flocking controller: every step the robot heads for the
 * sum of a vector towards the light and a flocking vector computed from
 * the red beacons its camera sees, steered through the three-mode wheel
 * turning. Its own beacon is lit red so that the others can see it.
 */
module FootBotFlocking {
  import opened Geometry
  import opened WheelTurning
  import opened Colors
  import opened Interaction

  /** A coloured blob seen by the omnidirectional camera. */
  datatype Blob = Blob(color: Color, distance: real, angle: real)

  /**
   * The flocking parameters as configured. The gain and the exponent shape
   * the Lennard-Jones magnitude, which is a power law and so is supplied as
   * a function of the distance (`lj`) rather than computed from them.
   */
  datatype FlockingParams = FlockingParams(targetDistance: real, gain: real, exponent: real)

  /**
   * Only red blobs (the beacons of the other robots; the light is seen as
   * yellow) closer than 180% of the target distance are neighbours.
   */
  predicate Counted(b: Blob, targetDistance: real) {
    b.color == Red && b.distance < targetDistance * 1.8
  }

  function CountedWithin(targetDistance: real): Blob -> bool {
    (b: Blob) => Counted(b, targetDistance)
  }

  /** A neighbour pulls or pushes with the Lennard-Jones magnitude of its distance, along its angle. */
  function BlobContribution(lj: real -> real, polar: (real, real) -> Vec2): Blob -> Vec2 {
    (b: Blob) => polar(lj(b.distance), b.angle)
  }

  class FootBotFlocking {
    const turningParams: TurningParams
    const flockingParams: FlockingParams
    var turning: TurningMechanism
    var leftSpeed: real
    var rightSpeed: real
    /** The colour of the beacon LED (LED 12). */
    var beacon: Color
    var cameraEnabled: bool

    predicate Valid() {
      ValidParams(turningParams)
    }

    /** Construction and initialisation: the turning mode starts as "no turn", then the robot is reset. */
    constructor(tp: TurningParams, fp: FlockingParams)
      requires ValidParams(tp)
      ensures Valid() && turningParams == tp && flockingParams == fp
      ensures turning == NoTurn && leftSpeed == 0.0 && rightSpeed == 0.0
      ensures cameraEnabled && beacon == Red
    {
      turningParams := tp;
      flockingParams := fp;
      turning := NoTurn;
      leftSpeed, rightSpeed := 0.0, 0.0;
      cameraEnabled := true;
      beacon := Red;
    }

    /** Reset switches the camera on and lights the beacon red. */
    method Reset()
      modifies this`cameraEnabled, this`beacon
      ensures cameraEnabled && beacon == Red
    {
      cameraEnabled := true;
      beacon := Red;
    }

    /** The light vector: the sum of the light readings, rescaled to a quarter of the maximum speed. */
    method VectorToLight(readings: seq<PolarReading>, polar: (real, real) -> Vec2, len: Vec2 -> real)
      returns (r: Vec2)
      requires IsLength(len)
      ensures r == TowardLight(PolarSum(readings, polar), 0.25 * turningParams.maxSpeed, len)
    {
      r := Interaction.VectorToLight(readings, 0.25 * turningParams.maxSpeed, polar, len);
    }

    /**
     * The flocking vector: the mean pull of the neighbouring beacons,
     * clamped to the maximum speed; zero when no neighbour is seen.
     */
    method FlockingVector(blobs: seq<Blob>, lj: real -> real, polar: (real, real) -> Vec2, len: Vec2 -> real)
      returns (r: Vec2)
      requires IsLength(len)
      ensures r == MeanInteraction(blobs, CountedWithin(flockingParams.targetDistance),
                                   BlobContribution(lj, polar), turningParams.maxSpeed, len)
      ensures SqLen2(r) <= turningParams.maxSpeed * turningParams.maxSpeed
      ensures (forall i :: 0 <= i < |blobs| ==> !Counted(blobs[i], flockingParams.targetDistance)) ==> r == Zero2
    {
      r := Interaction.FlockingVector(blobs, CountedWithin(flockingParams.targetDistance),
                                      BlobContribution(lj, polar), turningParams.maxSpeed, len);
    }

    /** Turns a heading into wheel speeds through the three-mode steering. */
    method SetWheelSpeedsFromVector(heading: Vec2, angleOf: Vec2 -> real, len: Vec2 -> real)
      requires Valid() && IsLength(len)
      modifies this`turning, this`leftSpeed, this`rightSpeed
      ensures var s := Steer(old(turning), angleOf(heading), len(heading), turningParams);
        turning == s.mechanism && leftSpeed == s.left && rightSpeed == s.right
    {
      var s := Steer(turning, angleOf(heading), len(heading), turningParams);
      turning := s.mechanism;
      leftSpeed, rightSpeed := s.left, s.right;
    }

    /** One step: steer along the light vector plus the flocking vector. */
    method ControlStep(light: seq<PolarReading>, blobs: seq<Blob>, lj: real -> real,
                       polar: (real, real) -> Vec2, angleOf: Vec2 -> real, len: Vec2 -> real)
      requires Valid() && IsLength(len)
      modifies this`turning, this`leftSpeed, this`rightSpeed
      ensures var heading := Add2(
          TowardLight(PolarSum(light, polar), 0.25 * turningParams.maxSpeed, len),
          MeanInteraction(blobs, CountedWithin(flockingParams.targetDistance),
                          BlobContribution(lj, polar), turningParams.maxSpeed, len));
        var s := Steer(old(turning), angleOf(heading), len(heading), turningParams);
        turning == s.mechanism && leftSpeed == s.left && rightSpeed == s.right
    {
      var toLight := VectorToLight(light, polar, len);
      var flocking := FlockingVector(blobs, lj, polar, len);
      SetWheelSpeedsFromVector(Add2(toLight, flocking), angleOf, len);
    }
  }
}
