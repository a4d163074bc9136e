/**
 * The foot-bot gripping controller: a fixed schedule driven by a step
 * counter. The robot drives forward, stops and grips the object at step
 * 70, drags it backwards, releases it at step 120 while still backing
 * away, and stops for good at step 170.
 */
module FootBotGripping {
  /** The counter is an unsigned 64-bit integer. */
  const UInt64Modulus: nat := 0x1_0000_0000_0000_0000

  datatype Gripper = Unlocked | LockedPositive

  /** What the schedule does at a given value of the counter. */
  datatype Action = Forward | StopAndGrip | Backward | Release | StopForever

  function ActionAt(counter: nat): (a: Action)
    ensures a == Forward <==> counter < 70
    ensures a == StopAndGrip <==> counter == 70
    ensures a == Backward <==> 70 < counter < 120
    ensures a == Release <==> 120 <= counter < 170
    ensures a == StopForever <==> 170 <= counter
  {
    if counter < 70 then Forward
    else if counter == 70 then StopAndGrip
    else if counter < 120 then Backward
    else if counter < 170 then Release
    else StopForever
  }

  /** The controller's state: the counter, the wheel speeds last set, and the gripper. */
  datatype Gripping = Gripping(counter: nat, left: real, right: real, gripper: Gripper)

  /**
   * One control step: the counter goes up (wrapping around at 2^64) and the
   * action for its new value is applied. Releasing touches only the
   * gripper, so the wheels keep the backward speed of the previous steps.
   */
  function Step(g: Gripping): Gripping {
    var c := (g.counter + 1) % UInt64Modulus;
    match ActionAt(c)
    case Forward => g.(counter := c, left := 5.0, right := 5.0)
    case StopAndGrip => g.(counter := c, left := 0.0, right := 0.0, gripper := LockedPositive)
    case Backward => g.(counter := c, left := -5.0, right := -5.0)
    case Release => g.(counter := c, gripper := Unlocked)
    case StopForever => g.(counter := c, left := 0.0, right := 0.0)
  }

  function Run(g: Gripping, n: nat): Gripping
    decreases n
  {
    if n == 0 then g else Step(Run(g, n - 1))
  }

  /**
   * From a reset counter, after n ≥ 1 steps the counter is n and the
   * robot is where the schedule puts it: driving forward before step 70,
   * stopped and gripping at 70, backing away until 169 with the object
   * held until 119 and released from 120 on, and stopped from 170 on.
   */
  lemma {:induction false} Schedule(g: Gripping, n: nat)
    requires g.counter == 0 && 1 <= n < UInt64Modulus
    ensures Run(g, n).counter == n
    ensures n < 70 ==> Run(g, n).left == 5.0 && Run(g, n).right == 5.0 && Run(g, n).gripper == g.gripper
    ensures n == 70 ==> Run(g, n).left == 0.0 && Run(g, n).right == 0.0
    ensures 70 < n < 170 ==> Run(g, n).left == -5.0 && Run(g, n).right == -5.0
    ensures 170 <= n ==> Run(g, n).left == 0.0 && Run(g, n).right == 0.0
    ensures 70 <= n < 120 ==> Run(g, n).gripper == LockedPositive
    ensures 120 <= n ==> Run(g, n).gripper == Unlocked
  {
    var prev := Run(g, n - 1);
    if n > 1 {
      Schedule(g, n - 1);
    }
    StepBelowWrap(prev);
  }

  /** Below the wrap-around, one step moves the counter up by one and applies the action for its new value. */
  lemma StepBelowWrap(p: Gripping)
    requires p.counter + 1 < UInt64Modulus
    ensures Step(p).counter == p.counter + 1
    ensures ActionAt(p.counter + 1) == Forward ==> Step(p) == p.(counter := p.counter + 1, left := 5.0, right := 5.0)
    ensures ActionAt(p.counter + 1) == StopAndGrip ==>
              Step(p) == p.(counter := p.counter + 1, left := 0.0, right := 0.0, gripper := LockedPositive)
    ensures ActionAt(p.counter + 1) == Backward ==> Step(p) == p.(counter := p.counter + 1, left := -5.0, right := -5.0)
    ensures ActionAt(p.counter + 1) == Release ==> Step(p) == p.(counter := p.counter + 1, gripper := Unlocked)
    ensures ActionAt(p.counter + 1) == StopForever ==> Step(p) == p.(counter := p.counter + 1, left := 0.0, right := 0.0)
  {
  }

  class FootBotGripping {
    var counter: nat
    var left: real
    var right: real
    var gripper: Gripper

    function Snapshot(): Gripping
      reads this
    {
      Gripping(counter, left, right, gripper)
    }

    predicate Valid()
      reads this
    {
      counter < UInt64Modulus
    }

    /** The counter starts at 0. */
    constructor()
      ensures Valid() && counter == 0
    {
      counter := 0;
    }

    /** Reset sets the counter back to 0 and nothing else. */
    method Reset()
      modifies this`counter
      ensures Valid() && counter == 0
    {
      counter := 0;
    }

    method ControlStep()
      requires Valid()
      modifies this
      ensures Valid()
      ensures Snapshot() == Step(old(Snapshot()))
    {
      counter := (counter + 1) % UInt64Modulus;
      if counter < 70 {
        left, right := 5.0, 5.0;
      } else if counter == 70 {
        left, right := 0.0, 0.0;
        gripper := LockedPositive;
      } else if counter < 120 {
        left, right := -5.0, -5.0;
      } else if counter < 170 {
        gripper := Unlocked;
      } else {
        left, right := 0.0, 0.0;
      }
    }
  }
}
