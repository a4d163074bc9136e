/**
 * The e-puck obstacle avoidance controller: of the four front proximity
 * sensors (0 and 1 on the left, 7 and 6 on the right) it finds the one
 * with the highest reading; when that reading is positive it turns away
 * from that side, otherwise it drives straight.
 */
module EPuckObstacleAvoidance {
  import opened Wrappers

  /** The e-puck's proximity sensor has eight readings. */
  const ProximityReadings: nat := 8
  const DefaultVelocity: real := 2.5

  /** The front sensors, in the order they are compared. */
  const FrontSensors: seq<nat> := [0, 1, 7, 6]

  /**
   * The index of the highest front reading; a later sensor replaces the
   * current one only when strictly higher, so ties go to the earlier one.
   */
  function Closest(readings: seq<real>): (idx: nat)
    requires |readings| >= ProximityReadings
    ensures idx in FrontSensors
    ensures forall k :: 0 <= k < |FrontSensors| ==> readings[FrontSensors[k]] <= readings[idx]
    ensures forall k :: 0 <= k < |FrontSensors| && FrontSensors[k] == idx ==>
              forall j :: 0 <= j < k ==> readings[FrontSensors[j]] < readings[idx]
  {
    var i0 := 0;
    var i1 := if readings[i0] < readings[1] then 1 else i0;
    var i2 := if readings[i1] < readings[7] then 7 else i1;
    if readings[i2] < readings[6] then 6 else i2
  }

  /** The wheel speeds (left, right) for one step. */
  function Wheels(readings: seq<real>, velocity: real): (r: (real, real))
    requires |readings| >= ProximityReadings
  {
    var idx := Closest(readings);
    if readings[idx] > 0.0 then
      if idx == 0 || idx == 1 then (velocity, 0.0) else (0.0, velocity)
    else (velocity, velocity)
  }

  /**
   * The robot drives straight exactly when no front sensor reads anything
   * positive; otherwise it turns right (left wheel only) when a left
   * sensor reads the most, and left when a right sensor does.
   */
  lemma WheelsTurnAway(readings: seq<real>, velocity: real)
    requires |readings| >= ProximityReadings && velocity != 0.0
    ensures Wheels(readings, velocity) == (velocity, velocity) <==>
              forall k :: 0 <= k < |FrontSensors| ==> readings[FrontSensors[k]] <= 0.0
    ensures Wheels(readings, velocity) == (velocity, 0.0) <==>
              exists k :: 0 <= k < 2 && readings[FrontSensors[k]] > 0.0 && Closest(readings) == FrontSensors[k]
    ensures Wheels(readings, velocity) == (0.0, velocity) <==>
              exists k :: 2 <= k < 4 && readings[FrontSensors[k]] > 0.0 && Closest(readings) == FrontSensors[k]
  {
    var idx := Closest(readings);
    if readings[idx] > 0.0 {
      if idx == 0 || idx == 1 {
        var k := if idx == 0 then 0 else 1;
        assert FrontSensors[k] == idx;
      } else {
        var k := if idx == 7 then 2 else 3;
        assert FrontSensors[k] == idx;
      }
    }
  }

  class EPuckObstacleAvoidance {
    const velocity: real
    var left: real
    var right: real

    /** Initialisation reads the wheel velocity from the configuration, 2.5 when absent. */
    constructor(configured: Option<real>)
      ensures velocity == (if configured.Some? then configured.value else DefaultVelocity)
    {
      velocity := if configured.Some? then configured.value else DefaultVelocity;
    }

    method ControlStep(readings: seq<real>)
      requires |readings| >= ProximityReadings
      modifies this`left, this`right
      ensures (left, right) == Wheels(readings, velocity)
    {
      var maxValue := readings[0];
      var maxIdx := 0;
      if maxValue < readings[1] {
        maxValue, maxIdx := readings[1], 1;
      }
      if maxValue < readings[7] {
        maxValue, maxIdx := readings[7], 7;
      }
      if maxValue < readings[6] {
        maxValue, maxIdx := readings[6], 6;
      }
      if maxValue > 0.0 {
        if maxIdx == 0 || maxIdx == 1 {
          left, right := velocity, 0.0;
        } else {
          left, right := 0.0, velocity;
        }
      } else {
        left, right := velocity, velocity;
      }
    }
  }
}
