/**
 * The three-mode steering of the foot-bot controllers: a heading vector
 * (given as its signed angle and its length) is turned into left and right
 * wheel speeds, with hysteresis between "no turn", "soft turn" and
 * "hard turn". The foraging and the flocking controller carry identical
 * copies of this logic; it is stated once here.
 */
module WheelTurning {
  datatype TurningMechanism = NoTurn | SoftTurn | HardTurn

  /** The thresholds and the speed limit read from the configuration. */
  datatype TurningParams = TurningParams(
    hardTurnOnAngleThreshold: real,
    softTurnOnAngleThreshold: real,
    noTurnAngleThreshold: real,
    maxSpeed: real)

  /** The speed factor divides by the hard-turn threshold. */
  predicate ValidParams(p: TurningParams) {
    p.hardTurnOnAngleThreshold > 0.0 && p.maxSpeed >= 0.0
  }

  datatype Steering = Steering(mechanism: TurningMechanism, left: real, right: real)

  function Abs(x: real): real { if x < 0.0 then -x else x }

  function Min(a: real, b: real): real { if a <= b then a else b }

  /** The cascade of mode transitions, applied in the source's order. */
  function NextMechanism(m: TurningMechanism, absAngle: real, p: TurningParams): TurningMechanism {
    var m1 := if m == HardTurn && absAngle <= p.softTurnOnAngleThreshold then SoftTurn else m;
    var m2 :=
      if m1 == SoftTurn then
        (if absAngle > p.hardTurnOnAngleThreshold then HardTurn
         else if absAngle <= p.noTurnAngleThreshold then NoTurn
         else SoftTurn)
      else m1;
    if m2 == NoTurn then
      (if absAngle > p.hardTurnOnAngleThreshold then HardTurn
       else if absAngle > p.noTurnAngleThreshold then SoftTurn
       else NoTurn)
    else m2
  }

  /**
   * The soft-turn speeds of the inner and the outer wheel: the inner one
   * slows down by the fraction the angle has covered of the hard-turn
   * threshold and the outer one speeds up by as much.
   */
  function SoftSpeeds(base: real, absAngle: real, hardThreshold: real): (r: (real, real))
    requires base >= 0.0 && 0.0 <= absAngle <= hardThreshold && hardThreshold > 0.0
    ensures r.0 == base * ((hardThreshold - absAngle) / hardThreshold)
    ensures r.0 + r.1 == 2.0 * base && 0.0 <= r.0 <= r.1 <= 2.0 * base
  {
    var factor := (hardThreshold - absAngle) / hardThreshold;
    FactorBounds(base, absAngle, hardThreshold);
    (base - base * (1.0 - factor), base + base * (1.0 - factor))
  }

  /** The wider the angle, the slower the inner wheel and the faster the outer one. */
  lemma SoftTurnSharpens(base: real, a1: real, a2: real, hardThreshold: real)
    requires base >= 0.0 && 0.0 <= a1 <= a2 <= hardThreshold && hardThreshold > 0.0
    ensures SoftSpeeds(base, a2, hardThreshold).0 <= SoftSpeeds(base, a1, hardThreshold).0
    ensures SoftSpeeds(base, a1, hardThreshold).1 <= SoftSpeeds(base, a2, hardThreshold).1
  {
    var f1 := (hardThreshold - a1) / hardThreshold;
    var f2 := (hardThreshold - a2) / hardThreshold;
    assert f1 * hardThreshold == hardThreshold - a1;
    assert f2 * hardThreshold == hardThreshold - a2;
    assert f2 <= f1;
    assert base * f2 <= base * f1;
  }

  lemma FactorBounds(base: real, absAngle: real, hardThreshold: real)
    requires base >= 0.0 && 0.0 <= absAngle <= hardThreshold && hardThreshold > 0.0
    ensures var factor := (hardThreshold - absAngle) / hardThreshold;
      0.0 <= base * (1.0 - factor) <= base
  {
    var factor := (hardThreshold - absAngle) / hardThreshold;
    assert factor * hardThreshold == hardThreshold - absAngle;
    assert 0.0 <= 1.0 - factor <= 1.0;
    assert base * (1.0 - factor) <= base * 1.0;
  }

  /**
   * New mode and wheel speeds for a heading of signed angle `angle` and
   * length `length`, starting from mode `m`. The mode ends up hard when
   * the angle is beyond the hard threshold, or when it was hard and the
   * angle is still beyond the soft threshold; it ends up "no turn" exactly
   * when it does not end up hard and the angle is within the no-turn
   * threshold. Going straight both wheels run at the base speed
   * min(length, MaxSpeed); a soft turn keeps the mean at the base speed
   * with the inner wheel slower; a hard turn spins on the spot at MaxSpeed.
   * A positive angle turns left (left wheel slower).
   */
  function Steer(m: TurningMechanism, angle: real, length: real, p: TurningParams): (s: Steering)
    requires ValidParams(p) && length >= 0.0
    ensures s.mechanism == HardTurn <==>
      Abs(angle) > p.hardTurnOnAngleThreshold
      || (m == HardTurn && Abs(angle) > p.softTurnOnAngleThreshold)
    ensures s.mechanism == NoTurn <==>
      Abs(angle) <= p.hardTurnOnAngleThreshold
      && !(m == HardTurn && Abs(angle) > p.softTurnOnAngleThreshold)
      && Abs(angle) <= p.noTurnAngleThreshold
    ensures s.mechanism == NoTurn ==>
      s.left == s.right == Min(length, p.maxSpeed)
    ensures s.mechanism == SoftTurn ==>
      s.left + s.right == 2.0 * Min(length, p.maxSpeed)
      && 0.0 <= s.left <= 2.0 * Min(length, p.maxSpeed)
      && 0.0 <= s.right <= 2.0 * Min(length, p.maxSpeed)
      && (angle > 0.0 ==> s.left <= s.right)
      && (angle <= 0.0 ==> s.right <= s.left)
      && (if angle > 0.0 then s.left else s.right)
         == Min(length, p.maxSpeed) * ((p.hardTurnOnAngleThreshold - Abs(angle)) / p.hardTurnOnAngleThreshold)
    ensures s.mechanism == HardTurn ==>
      (angle > 0.0 ==> s.left == -p.maxSpeed && s.right == p.maxSpeed)
      && (angle <= 0.0 ==> s.left == p.maxSpeed && s.right == -p.maxSpeed)
  {
    var a := Abs(angle);
    var base := Min(length, p.maxSpeed);
    var mech := NextMechanism(m, a, p);
    var speeds: (real, real) :=
      match mech
      case NoTurn => (base, base)
      case SoftTurn => SoftSpeeds(base, a, p.hardTurnOnAngleThreshold)
      case HardTurn => (-p.maxSpeed, p.maxSpeed);
    if angle > 0.0 then Steering(mech, speeds.0, speeds.1)
    else Steering(mech, speeds.1, speeds.0)
  }

  /** Steering again with the same heading leaves the mode where it is. */
  lemma SteerSettles(m: TurningMechanism, angle: real, length: real, p: TurningParams)
    requires ValidParams(p) && length >= 0.0
    ensures Steer(Steer(m, angle, length, p).mechanism, angle, length, p) == Steer(m, angle, length, p)
  {
  }
}
