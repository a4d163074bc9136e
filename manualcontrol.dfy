/**
 * Manual control of a foot-bot from the keyboard of the visualisation:
 * the user functions keep a pressed flag for each of the keys I, K, J
 * and L (forward, backward, left, right) and, while a robot is selected,
 * turn the flags into the control vector of that robot's controller.
 * Events the user functions do not handle are forwarded to the
 * visualisation widget.
 */
module ManualControl {
  import opened Geometry

  /** How far the control vector reaches along each axis. */
  const DirectionVectorFactor: real := 10.0

  /** The slots of the four key flags. */
  const Forward: nat := 0
  const Backward: nat := 1
  const Left: nat := 2
  const Right: nat := 3

  datatype Key = KeyI | KeyK | KeyJ | KeyL | OtherKey(code: int)

  /** The flag a key drives, if any. */
  function Slot(k: Key): (s: nat)
    requires !k.OtherKey?
    ensures s < 4
  {
    match k
    case KeyI => Forward
    case KeyK => Backward
    case KeyJ => Left
    case KeyL => Right
  }

  /** +1 when the first key is held, -1 for the second, and both held cancel. */
  function Axis(flags: seq<nat>, plus: nat, minus: nat): real
    requires plus < |flags| && minus < |flags|
  {
    (if flags[plus] != 0 then 1.0 else 0.0) - (if flags[minus] != 0 then 1.0 else 0.0)
  }

  /** The control vector for the flags: forward/backward along x, left/right along y. */
  function Direction(flags: seq<nat>): (v: Vec2)
    requires |flags| == 4
  {
    Vec2(DirectionVectorFactor * Axis(flags, Forward, Backward), DirectionVectorFactor * Axis(flags, Left, Right))
  }

  /** The manual-control foot-bot controller, as far as the user functions use it. */
  class ManualController {
    /** When selected, the robot follows the control vector; otherwise it stays still. */
    var selected: bool
    var control: Vec2

    constructor()
      ensures !selected && control == Zero2
    {
      selected := false;
      control := Zero2;
    }

    method Select()
      modifies this`selected
      ensures selected
    {
      selected := true;
    }

    method Deselect()
      modifies this`selected
      ensures !selected
    {
      selected := false;
    }

    method SetControlVector(v: Vec2)
      modifies this`control
      ensures control == v
    {
      control := v;
    }
  }

  /** An entity the user can select: a foot-bot running the manual controller, or anything else. */
  datatype Entity = FootBot(controller: ManualController) | OtherEntity

  class ManualControlUserFunctions {
    /** The pressed flags, one per direction key. */
    const pressedKeys: array<nat>
    /** The controller of the selected robot; null when none is selected. */
    var controller: ManualController?

    predicate Valid()
      reads this
    {
      pressedKeys.Length == 4
    }

    /** No robot is selected and no key is pressed. */
    constructor()
      ensures Valid() && controller == null && pressedKeys[..] == [0, 0, 0, 0] && fresh(pressedKeys)
    {
      pressedKeys := new nat[4](_ => 0);
      controller := null;
    }

    /** Sends the direction of the current flags to the selected controller. */
    method SetDirectionFromKeyEvent()
      requires Valid() && controller != null
      modifies controller`control
      ensures controller.control == Direction(pressedKeys[..])
    {
      var fb := 0.0;
      var lr := 0.0;
      if pressedKeys[Forward] != 0 { fb := fb + 1.0; }
      if pressedKeys[Backward] != 0 { fb := fb - 1.0; }
      if pressedKeys[Left] != 0 { lr := lr + 1.0; }
      if pressedKeys[Right] != 0 { lr := lr - 1.0; }
      assert fb == Axis(pressedKeys[..], Forward, Backward) && lr == Axis(pressedKeys[..], Left, Right);
      var dir := Vec2(DirectionVectorFactor * fb, DirectionVectorFactor * lr);
      controller.SetControlVector(dir);
    }

    /**
     * Sets the flag of a direction key, to 1 on a press and to 0 on a
     * release, and updates the direction; reports whether the event is
     * forwarded to the widget instead, which happens with no robot
     * selected or for any other key.
     */
    method KeyEvent(k: Key, pressed: bool) returns (forwarded: bool)
      requires Valid()
      modifies pressedKeys, controller
      ensures forwarded <==> controller == null || k.OtherKey?
      ensures controller != null ==> controller.selected == old(controller.selected)
      ensures forwarded ==> pressedKeys[..] == old(pressedKeys[..])
      ensures forwarded && controller != null ==> controller.control == old(controller.control)
      ensures !forwarded ==> pressedKeys[..] == old(pressedKeys[..])[Slot(k) := if pressed then 1 else 0]
      ensures !forwarded ==> controller.control == Direction(pressedKeys[..])
    {
      if controller == null || k.OtherKey? {
        return true;
      }
      pressedKeys[Slot(k)] := if pressed then 1 else 0;
      SetDirectionFromKeyEvent();
      forwarded := false;
    }

    method KeyPressed(k: Key) returns (forwarded: bool)
      requires Valid()
      modifies pressedKeys, controller
      ensures forwarded <==> controller == null || k.OtherKey?
      ensures controller != null ==> controller.selected == old(controller.selected)
      ensures forwarded ==> pressedKeys[..] == old(pressedKeys[..])
      ensures forwarded && controller != null ==> controller.control == old(controller.control)
      ensures !forwarded ==> pressedKeys[..] == old(pressedKeys[..])[Slot(k) := 1]
      ensures !forwarded ==> controller.control == Direction(pressedKeys[..])
    {
      forwarded := KeyEvent(k, true);
    }

    method KeyReleased(k: Key) returns (forwarded: bool)
      requires Valid()
      modifies pressedKeys, controller
      ensures forwarded <==> controller == null || k.OtherKey?
      ensures controller != null ==> controller.selected == old(controller.selected)
      ensures forwarded ==> pressedKeys[..] == old(pressedKeys[..])
      ensures forwarded && controller != null ==> controller.control == old(controller.control)
      ensures !forwarded ==> pressedKeys[..] == old(pressedKeys[..])[Slot(k) := 0]
      ensures !forwarded ==> controller.control == Direction(pressedKeys[..])
    {
      forwarded := KeyEvent(k, false);
    }

    /**
     * Selecting a foot-bot takes its controller, tells it it is selected
     * and clears the flags; selecting anything else changes nothing.
     */
    method EntitySelected(e: Entity)
      requires Valid()
      modifies this`controller, pressedKeys, if e.FootBot? then {e.controller} else {}
      ensures Valid()
      ensures e.FootBot? ==> controller == e.controller && controller.selected && pressedKeys[..] == [0, 0, 0, 0]
      ensures e.OtherEntity? ==> controller == old(controller) && pressedKeys[..] == old(pressedKeys[..])
    {
      if e.OtherEntity? {
        return;
      }
      controller := e.controller;
      controller.Select();
      pressedKeys[Forward] := 0;
      pressedKeys[Backward] := 0;
      pressedKeys[Left] := 0;
      pressedKeys[Right] := 0;
      assert pressedKeys[..] == [0, 0, 0, 0];
    }

    /** Deselecting tells the selected controller and forgets it. */
    method EntityDeselected(e: Entity)
      requires Valid()
      modifies this`controller, controller
      ensures controller == null
      ensures old(controller) != null ==> !old(controller).selected
      ensures pressedKeys[..] == old(pressedKeys[..])
    {
      if controller == null {
        return;
      }
      controller.Deselect();
      controller := null;
    }
  }

  /** One component of the control vector: 0 when both or neither of its keys are held, else ±10. */
  lemma AxisValue(flags: seq<nat>, plus: nat, minus: nat)
    requires plus < |flags| && minus < |flags|
    ensures var a := DirectionVectorFactor * Axis(flags, plus, minus);
      ((flags[plus] != 0) == (flags[minus] != 0) ==> a == 0.0)
      && (flags[plus] != 0 && flags[minus] == 0 ==> a == 10.0)
      && (flags[minus] != 0 && flags[plus] == 0 ==> a == -10.0)
  {
  }

  /** Each component of the control vector is -10, 0 or 10 depending on which of its two keys are held. */
  lemma DirectionComponents(flags: seq<nat>)
    requires |flags| == 4
    ensures var v := Direction(flags);
      ((flags[Forward] != 0) == (flags[Backward] != 0) ==> v.x == 0.0)
      && (flags[Forward] != 0 && flags[Backward] == 0 ==> v.x == 10.0)
      && (flags[Backward] != 0 && flags[Forward] == 0 ==> v.x == -10.0)
      && ((flags[Left] != 0) == (flags[Right] != 0) ==> v.y == 0.0)
      && (flags[Left] != 0 && flags[Right] == 0 ==> v.y == 10.0)
      && (flags[Right] != 0 && flags[Left] == 0 ==> v.y == -10.0)
  {
    AxisValue(flags, Forward, Backward);
    AxisValue(flags, Left, Right);
  }
}
