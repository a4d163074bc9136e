/**
 * The foot-bot synchronization controller, a firefly-style oscillator: a
 * counter advances by one each step, or by a tenth of itself when some
 * other robot is seen flashing red; when it passes 100 the robot flashes
 * red and the counter restarts from 0.
 */
module FootBotSynchronization {
  import opened Colors

  /** The counter's range is [0, 100]; passing the upper end triggers a flash. */
  const CountMax: nat := 100

  /** Someone flashed when some blob the camera sees is red. */
  predicate SomeoneFlashed(blobs: seq<Color>) {
    exists i :: 0 <= i < |blobs| && blobs[i] == Red
  }

  /** The counter after one step, before the flash check. */
  function Advance(counter: nat, flashed: bool): nat {
    if flashed then counter + counter / 10 else counter + 1
  }

  /** One step: the new counter and the colour of all the LEDs. */
  function Tick(counter: nat, flashed: bool): (r: (nat, Color))
    ensures r.1 == Red <==> Advance(counter, flashed) > CountMax
    ensures r.1 == Red ==> r.0 == 0
    ensures r.1 != Red ==> r.1 == Black && r.0 == Advance(counter, flashed)
  {
    var c := Advance(counter, flashed);
    if c > CountMax then (0, Red) else (c, Black)
  }

  /** A counter in range stays in range, so the 32-bit counter of the robot never wraps around. */
  lemma TickInRange(counter: nat, flashed: bool)
    requires counter <= CountMax
    ensures Tick(counter, flashed).0 <= CountMax
    ensures Advance(counter, flashed) <= CountMax + CountMax / 10
  {
  }

  /** The counter never goes down, except when the robot flashes and restarts from 0. */
  lemma TickMonotone(counter: nat, flashed: bool)
    ensures Tick(counter, flashed).0 >= counter || Tick(counter, flashed) == (0, Red)
  {
  }

  /**
   * Seeing a flash while the counter is below 10 advances it by nothing:
   * the tenth of the counter rounds down to 0.
   */
  lemma FlashBelowTenStalls(counter: nat)
    requires counter < 10
    ensures Tick(counter, true) == (counter, Black)
  {
  }

  /** Seeing a flash from 10 on advances the counter at least as much as a step without one. */
  lemma FlashAdvances(counter: nat)
    requires 10 <= counter
    ensures Advance(counter, true) >= Advance(counter, false)
  {
  }

  /** The counter after `n` steps in which no other robot flashes. */
  function Alone(counter: nat, n: nat): nat
    decreases n
  {
    if n == 0 then counter else Tick(Alone(counter, n - 1), false).0
  }

  /**
   * A robot that sees no flash from others, starting from a counter c in
   * range, stays dark for 100 - c steps and flashes at the next one.
   */
  lemma {:induction false} AloneFlashesAfter(counter: nat, n: nat)
    requires counter <= CountMax && n <= CountMax - counter
    ensures Alone(counter, n) == counter + n
    ensures n == CountMax - counter ==> Tick(Alone(counter, n), false) == (0, Red)
  {
    if n > 0 {
      AloneFlashesAfter(counter, n - 1);
    }
  }

  class FootBotSynchronization {
    var counter: nat
    /** The colour all the LEDs were last set to. */
    var leds: Color
    var cameraEnabled: bool

    predicate Valid()
      reads this
    {
      counter <= CountMax
    }

    /**
     * Construction and initialisation: the counter is drawn at random in
     * the count range so that the robots start out of step; `draw` is that
     * draw. The camera is switched on.
     */
    constructor(draw: nat)
      requires draw <= CountMax
      ensures Valid() && counter == draw && cameraEnabled
    {
      counter := draw;
      cameraEnabled := true;
    }

    /** Reset draws the counter again; nothing else changes. */
    method Reset(draw: nat)
      requires draw <= CountMax
      modifies this`counter
      ensures Valid() && counter == draw
    {
      counter := draw;
    }

    /** Scans the blobs for a red one, stopping at the first. */
    static method ScanForFlash(blobs: seq<Color>) returns (flashed: bool)
      ensures flashed <==> SomeoneFlashed(blobs)
    {
      flashed := false;
      var i := 0;
      while !flashed && i < |blobs|
        invariant 0 <= i <= |blobs|
        invariant flashed ==> 0 < i && blobs[i - 1] == Red
        invariant !flashed ==> forall j :: 0 <= j < i ==> blobs[j] != Red
        decreases |blobs| - i, !flashed
      {
        flashed := blobs[i] == Red;
        i := i + 1;
      }
    }

    method ControlStep(blobs: seq<Color>)
      requires Valid()
      modifies this`counter, this`leds
      ensures Valid()
      ensures (counter, leds) == Tick(old(counter), SomeoneFlashed(blobs))
    {
      var flashed := ScanForFlash(blobs);
      if flashed {
        counter := counter + counter / 10;
      } else {
        counter := counter + 1;
      }
      if counter > CountMax {
        leds := Red;
        counter := 0;
      } else {
        leds := Black;
      }
    }
  }
}
