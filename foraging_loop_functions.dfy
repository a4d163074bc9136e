/**
 * The loop functions of the foraging experiment: food items scattered in
 * the arena, picked up by foot-bots that drive over them and delivered
 * when a carrying robot enters the nest (the grey area x < -1), with a
 * ledger of collected items and of the energy the swarm gains by
 * delivering and spends by walking.
 *
 * The uniform draws of the random generator are inputs: one position in
 * the arena per food item at initialisation and reset, and one per robot
 * at each step, used to re-place the item that robot delivers.
 */
module ForagingLoop {
  import opened Wrappers
  import opened Geometry
  import opened Colors
  import opened FootBotForaging

  /** The arena sides over which items are scattered. */
  const ArenaXMin: real := -0.9
  const ArenaXMax: real := 1.7
  const ArenaYMin: real := -1.7
  const ArenaYMax: real := 1.7
  /** The nest is the part of the floor with x below this value. */
  const NestBorder: real := -1.0
  /** Where a picked item is moved, out of sight. */
  const Hidden: Vec2 := Vec2(100.0, 100.0)
  /** 2^32: the product of two 32-bit unsigned values wraps around it. */
  const UInt32Modulus: nat := 0x1_0000_0000

  /** A uniform draw on the two arena sides (upper bounds excluded). */
  predicate InArena(v: Vec2) {
    ArenaXMin <= v.x < ArenaXMax && ArenaYMin <= v.y < ArenaYMax
  }

  predicate ArenaDraws(draws: seq<Vec2>) {
    forall k :: 0 <= k < |draws| ==> InArena(draws[k])
  }

  /**
   * The lowest index from `from` on of a food item whose squared distance
   * to `p` is below `sqRadius`, if there is one.
   */
  function FirstItemWithin(foodPos: seq<Vec2>, sqRadius: real, p: Vec2, from: nat): (r: Option<nat>)
    requires from <= |foodPos|
    ensures r.Some? ==>
      from <= r.value < |foodPos| && SqDist2(p, foodPos[r.value]) < sqRadius
      && forall j :: from <= j < r.value ==> SqDist2(p, foodPos[j]) >= sqRadius
    ensures r.None? ==> forall j :: from <= j < |foodPos| ==> SqDist2(p, foodPos[j]) >= sqRadius
    decreases |foodPos| - from
  {
    if from == |foodPos| then None
    else if SqDist2(p, foodPos[from]) < sqRadius then Some(from)
    else FirstItemWithin(foodPos, sqRadius, p, from + 1)
  }

  /** The loop functions' counters and the food positions. */
  datatype Ledger = Ledger(foodPos: seq<Vec2>, collectedFood: nat, energy: int)

  /** The value of a robot's food record. */
  datatype Carry = Carry(hasFoodItem: bool, foodItemIdx: nat, totalFoodItems: nat)

  /** A carrying robot refers to an existing item. */
  predicate CarryValid(c: Carry, items: nat) {
    c.hasFoodItem ==> c.foodItemIdx < items
  }

  predicate CarriesValid(cs: seq<Carry>, items: nat) {
    forall k :: 0 <= k < |cs| ==> CarryValid(cs[k], items)
  }

  /** Whether the robot delivers its item at this step: it carries one and is in the nest. */
  predicate Delivers(c: Carry, pos: Vec2) {
    c.hasFoodItem && pos.x < NestBorder
  }

  /**
   * What the loop functions do for one robot. A carrying robot in the nest
   * delivers: its item is re-placed at the draw, the robot no longer
   * carries, its total grows by one, and the collected count and the
   * energy grow by one and by the energy per item. A robot without food
   * strictly outside the nest picks the lowest-index item within the
   * radius, if any, and that item is hidden. Every other robot (a carrying
   * one outside the nest, an empty one in the nest or on its border, and a
   * carrying one exactly on the border) changes nothing. The number of items never changes, and a
   * carrying robot always refers to an existing item.
   */
  function Visit(l: Ledger, c: Carry, pos: Vec2, draw: Vec2, sqRadius: real, perItem: nat): (r: (Ledger, Carry))
    requires CarryValid(c, |l.foodPos|)
    ensures |r.0.foodPos| == |l.foodPos| && CarryValid(r.1, |l.foodPos|)
    ensures Delivers(c, pos) ==>
      r.1 == Carry(false, 0, c.totalFoodItems + 1)
      && r.0 == Ledger(l.foodPos[c.foodItemIdx := draw], l.collectedFood + 1, l.energy + perItem)
    ensures !c.hasFoodItem && pos.x > NestBorder ==>
      match FirstItemWithin(l.foodPos, sqRadius, pos, 0)
      case None => r == (l, c)
      case Some(i) =>
        r.1 == c.(hasFoodItem := true, foodItemIdx := i)
        && r.0 == l.(foodPos := l.foodPos[i := Hidden])
    ensures !Delivers(c, pos) && (c.hasFoodItem || pos.x <= NestBorder) ==> r == (l, c)
    ensures r.1.totalFoodItems == c.totalFoodItems + (if Delivers(c, pos) then 1 else 0)
    ensures r.0.collectedFood == l.collectedFood + (if Delivers(c, pos) then 1 else 0)
    ensures r.0.energy == l.energy + (if Delivers(c, pos) then perItem else 0)
  {
    if c.hasFoodItem then
      if pos.x < NestBorder then
        (Ledger(l.foodPos[c.foodItemIdx := draw], l.collectedFood + 1, l.energy + perItem),
         Carry(false, 0, c.totalFoodItems + 1))
      else (l, c)
    else if pos.x > NestBorder then
      match FirstItemWithin(l.foodPos, sqRadius, pos, 0)
      case Some(i) => (l.(foodPos := l.foodPos[i := Hidden]), c.(hasFoodItem := true, foodItemIdx := i))
      case None => (l, c)
    else (l, c)
  }

  /** The number of robots among the first `|cs|` that deliver. */
  function Deliveries(cs: seq<Carry>, ps: seq<Vec2>): (n: nat)
    requires |ps| == |cs|
    ensures n <= |cs|
    decreases |cs|
  {
    if |cs| == 0 then 0
    else Deliveries(cs[..|cs| - 1], ps[..|ps| - 1]) + (if Delivers(cs[|cs| - 1], ps[|ps| - 1]) then 1 else 0)
  }

  /**
   * The robots visited in order, each seeing the food positions the
   * previous ones left. The item count is kept and every robot still
   * refers to an existing item.
   */
  function VisitAll(l: Ledger, cs: seq<Carry>, ps: seq<Vec2>, ds: seq<Vec2>, sqRadius: real, perItem: nat)
    : (r: (Ledger, seq<Carry>))
    requires |ps| == |cs| && |ds| == |cs| && CarriesValid(cs, |l.foodPos|)
    ensures |r.1| == |cs| && |r.0.foodPos| == |l.foodPos| && CarriesValid(r.1, |l.foodPos|)
    decreases |cs|
  {
    if |cs| == 0 then (l, [])
    else
      var n := |cs| - 1;
      var prev := VisitAll(l, cs[..n], ps[..n], ds[..n], sqRadius, perItem);
      var v := Visit(prev.0, cs[n], ps[n], ds[n], sqRadius, perItem);
      (v.0, prev.1 + [v.1])
  }

  /** Each robot's total grows by one exactly when it delivers. */
  lemma {:induction false} VisitAllTotals(l: Ledger, cs: seq<Carry>, ps: seq<Vec2>, ds: seq<Vec2>, sqRadius: real, perItem: nat)
    requires |ps| == |cs| && |ds| == |cs| && CarriesValid(cs, |l.foodPos|)
    ensures var r := VisitAll(l, cs, ps, ds, sqRadius, perItem);
      forall k :: 0 <= k < |cs| ==>
        r.1[k].totalFoodItems == cs[k].totalFoodItems + (if Delivers(cs[k], ps[k]) then 1 else 0)
  {
    if |cs| > 0 {
      var n := |cs| - 1;
      VisitAllTotals(l, cs[..n], ps[..n], ds[..n], sqRadius, perItem);
      var prev := VisitAll(l, cs[..n], ps[..n], ds[..n], sqRadius, perItem);
      var r := VisitAll(l, cs, ps, ds, sqRadius, perItem);
      assert r.1 == prev.1 + [Visit(prev.0, cs[n], ps[n], ds[n], sqRadius, perItem).1];
      assert forall k :: 0 <= k < n ==> cs[..n][k] == cs[k] && ps[..n][k] == ps[k] && r.1[k] == prev.1[k];
    }
  }

  /**
   * The collected count and the energy grow by the number of deliveries
   * and by that many times the energy per item.
   */
  lemma {:induction false} VisitAllLedger(l: Ledger, cs: seq<Carry>, ps: seq<Vec2>, ds: seq<Vec2>, sqRadius: real, perItem: nat)
    requires |ps| == |cs| && |ds| == |cs| && CarriesValid(cs, |l.foodPos|)
    ensures var r := VisitAll(l, cs, ps, ds, sqRadius, perItem);
      r.0.collectedFood == l.collectedFood + Deliveries(cs, ps)
      && r.0.energy == l.energy + perItem * Deliveries(cs, ps)
  {
    if |cs| > 0 {
      var n := |cs| - 1;
      VisitAllLedger(l, cs[..n], ps[..n], ds[..n], sqRadius, perItem);
      var prev := VisitAll(l, cs[..n], ps[..n], ds[..n], sqRadius, perItem);
      assert VisitAll(l, cs, ps, ds, sqRadius, perItem).0 == Visit(prev.0, cs[n], ps[n], ds[n], sqRadius, perItem).0;
      var d := Deliveries(cs[..n], ps[..n]);
      assert perItem * (d + 1) == perItem * d + perItem;
    }
  }

  function CarryOf(fd: FoodData): Carry reads fd {
    Carry(fd.hasFoodItem, fd.foodItemIdx, fd.totalFoodItems)
  }

  /** The food records of the robots, in order. */
  function Carries(robots: seq<FootBotForaging>): (cs: seq<Carry>)
    reads set k | 0 <= k < |robots| :: robots[k].foodData
    ensures |cs| == |robots| && forall k :: 0 <= k < |robots| ==> cs[k] == CarryOf(robots[k].foodData)
  {
    seq(|robots|, k requires 0 <= k < |robots| reads set j | 0 <= j < |robots| :: robots[j].foodData =>
      CarryOf(robots[k].foodData))
  }

  /** The number of robots that are not resting. */
  function Walking(robots: seq<FootBotForaging>): (n: nat)
    reads robots
    ensures n <= |robots|
    decreases |robots|
  {
    if |robots| == 0 then 0
    else Walking(robots[..|robots| - 1]) + (if robots[|robots| - 1].IsResting() then 0 else 1)
  }

  /** Counts the robots that are not resting, and those that are. */
  method CountWalking(robots: seq<FootBotForaging>) returns (walking: nat, resting: nat)
    ensures walking == Walking(robots) && walking + resting == |robots|
  {
    walking, resting := 0, 0;
    var i := 0;
    while i < |robots|
      invariant 0 <= i <= |robots|
      invariant walking == Walking(robots[..i]) && walking + resting == i
    {
      assert robots[..i + 1][..i] == robots[..i];
      if !robots[i].IsResting() {
        walking := walking + 1;
      } else {
        resting := resting + 1;
      }
      i := i + 1;
    }
    assert robots[..|robots|] == robots;
  }

  /** Every robot has its own food record. */
  predicate DistinctFoodData(robots: seq<FootBotForaging>) {
    forall j, k :: 0 <= j < k < |robots| ==> robots[j].foodData != robots[k].foodData
  }

  class ForagingLoopFunctions {
    var foodPos: seq<Vec2>
    var foodSquareRadius: real
    var collectedFood: nat
    var energy: int
    var energyPerFoodItem: nat
    var energyPerWalkingRobot: nat

    function GetLedger(): Ledger reads this {
      Ledger(foodPos, collectedFood, energy)
    }

    /**
     * Initialisation: `items` food items at the given draws, the radius
     * stored squared, both counters at 0 and the configured energies.
     */
    constructor(items: nat, radius: real, perItem: nat, perWalkingRobot: nat, draws: seq<Vec2>)
      requires |draws| == items && ArenaDraws(draws)
      requires perItem < UInt32Modulus && perWalkingRobot < UInt32Modulus
      ensures foodPos == draws && |foodPos| == items
      ensures foodSquareRadius == radius * radius
      ensures collectedFood == 0 && energy == 0
      ensures energyPerFoodItem == perItem && energyPerWalkingRobot == perWalkingRobot
    {
      collectedFood := 0;
      energy := 0;
      foodSquareRadius := radius * radius;
      energyPerFoodItem := perItem;
      energyPerWalkingRobot := perWalkingRobot;
      var placed := [];
      var i := 0;
      while i < items
        invariant 0 <= i <= items && placed == draws[..i]
      {
        placed := placed + [draws[i]];
        i := i + 1;
      }
      assert draws[..items] == draws;
      foodPos := placed;
    }

    /** Both counters back to 0 and every item re-placed at its draw. */
    method Reset(draws: seq<Vec2>)
      requires |draws| == |foodPos| && ArenaDraws(draws)
      modifies this`collectedFood, this`energy, this`foodPos
      ensures collectedFood == 0 && energy == 0
      ensures foodPos == draws
    {
      collectedFood := 0;
      energy := 0;
      var i := 0;
      while i < |foodPos|
        invariant 0 <= i <= |foodPos| == |draws|
        invariant forall k :: 0 <= k < i ==> foodPos[k] == draws[k]
        invariant collectedFood == 0 && energy == 0
      {
        foodPos := foodPos[i := draws[i]];
        i := i + 1;
      }
      assert foodPos == draws;
    }

    /**
     * The floor: grey in the nest whatever lies there; outside it black
     * exactly where some item is within the radius, white elsewhere.
     */
    function GetFloorColor(p: Vec2): (c: Color)
      reads this
      ensures p.x < NestBorder ==> c == Gray50
      ensures p.x >= NestBorder ==>
        (c == Black <==> exists i :: 0 <= i < |foodPos| && SqDist2(p, foodPos[i]) < foodSquareRadius)
      ensures p.x >= NestBorder ==> c != Gray50
    {
      if p.x < NestBorder then Gray50
      else if FirstItemWithin(foodPos, foodSquareRadius, p, 0).Some? then Black
      else White
    }

    /** The drop or pick of one robot, as `Visit` states. */
    method VisitRobot(fd: FoodData, pos: Vec2, draw: Vec2)
      requires CarryValid(CarryOf(fd), |foodPos|)
      modifies this`collectedFood, this`energy, this`foodPos, fd
      ensures (GetLedger(), CarryOf(fd)) ==
        Visit(old(GetLedger()), old(CarryOf(fd)), pos, draw, foodSquareRadius, energyPerFoodItem)
    {
      if fd.hasFoodItem {
        if pos.x < NestBorder {
          foodPos := foodPos[fd.foodItemIdx := draw];
          fd.hasFoodItem := false;
          fd.foodItemIdx := 0;
          fd.totalFoodItems := fd.totalFoodItems + 1;
          energy := energy + energyPerFoodItem;
          collectedFood := collectedFood + 1;
        }
      } else if pos.x > NestBorder {
        var done := false;
        var i := 0;
        while i < |foodPos| && !done
          invariant 0 <= i <= |foodPos| == |old(foodPos)|
          invariant !done ==> foodPos == old(foodPos) && CarryOf(fd) == old(CarryOf(fd))
          invariant !done ==> forall j :: 0 <= j < i ==> SqDist2(pos, foodPos[j]) >= foodSquareRadius
          invariant done ==> (0 < i
            && FirstItemWithin(old(foodPos), foodSquareRadius, pos, 0) == Some(i - 1)
            && foodPos == old(foodPos)[i - 1 := Hidden]
            && CarryOf(fd) == old(CarryOf(fd)).(hasFoodItem := true, foodItemIdx := i - 1))
          invariant collectedFood == old(collectedFood) && energy == old(energy)
        {
          if SqDist2(pos, foodPos[i]) < foodSquareRadius {
            FirstWithinFromStart(foodPos, foodSquareRadius, pos, i);
            foodPos := foodPos[i := Hidden];
            fd.hasFoodItem := true;
            fd.foodItemIdx := i;
            done := true;
          }
          i := i + 1;
        }
        if !done {
          NoneWithin(foodPos, foodSquareRadius, pos);
        }
      }
    }

    /**
     * One step before the robots act: every robot is visited in order and
     * delivers or picks as `VisitAll` states, walking and resting robots
     * are counted, and the energy falls by the walking count times the
     * energy per walking robot, a product that wraps around 2^32.
     */
    method PreStep(robots: seq<FootBotForaging>, positions: seq<Vec2>, draws: seq<Vec2>)
      returns (walking: nat, resting: nat)
      requires |positions| == |robots| && |draws| == |robots| && ArenaDraws(draws)
      requires DistinctFoodData(robots) && CarriesValid(Carries(robots), |foodPos|)
      modifies this`collectedFood, this`energy, this`foodPos
      modifies set k | 0 <= k < |robots| :: robots[k].foodData
      ensures walking == old(Walking(robots)) && walking + resting == |robots|
      ensures var s := VisitAll(old(GetLedger()), old(Carries(robots)), positions, draws,
                                foodSquareRadius, energyPerFoodItem);
        Carries(robots) == s.1 && foodPos == s.0.foodPos && collectedFood == s.0.collectedFood
        && energy == s.0.energy - (walking * energyPerWalkingRobot) % UInt32Modulus
      ensures |foodPos| == |old(foodPos)|
    {
      walking, resting := CountWalking(robots);
      VisitRobots(robots, positions, draws);
      ghost var carried := Carries(robots);
      forall k | 0 <= k < |robots| ensures (robots[k].foodData as object) != this {}
      energy := energy - (walking * energyPerWalkingRobot) % UInt32Modulus;
      assert Carries(robots) == carried;
    }

    /** The loop of `PreStep` over the robots. */
    method VisitRobots(robots: seq<FootBotForaging>, positions: seq<Vec2>, draws: seq<Vec2>)
      requires |positions| == |robots| && |draws| == |robots|
      requires DistinctFoodData(robots) && CarriesValid(Carries(robots), |foodPos|)
      modifies this`collectedFood, this`energy, this`foodPos
      modifies set k | 0 <= k < |robots| :: robots[k].foodData
      ensures (GetLedger(), Carries(robots)) ==
        VisitAll(old(GetLedger()), old(Carries(robots)), positions, draws, foodSquareRadius, energyPerFoodItem)
    {
      ghost var l0 := GetLedger();
      ghost var c0 := Carries(robots);
      assert c0[..0] == [] && c0[0..] == c0;
      var i := 0;
      while i < |robots|
        invariant 0 <= i <= |robots|
        invariant VisitedUpTo(GetLedger(), Carries(robots), positions, draws, l0, c0, i,
                              foodSquareRadius, energyPerFoodItem)
      {
        VisitNth(robots, positions, draws, l0, c0, i);
        i := i + 1;
      }
      VisitedEveryRobot(GetLedger(), Carries(robots), positions, draws, l0, c0,
                        foodSquareRadius, energyPerFoodItem);
    }

    /** Visits robot `i`, extending the visit of the robots before it. */
    method VisitNth(robots: seq<FootBotForaging>, positions: seq<Vec2>, draws: seq<Vec2>,
                    ghost l0: Ledger, ghost c0: seq<Carry>, i: nat)
      requires i < |robots| && DistinctFoodData(robots)
      requires VisitedUpTo(GetLedger(), Carries(robots), positions, draws, l0, c0, i,
                           foodSquareRadius, energyPerFoodItem)
      modifies this`collectedFood, this`energy, this`foodPos, robots[i].foodData
      ensures VisitedUpTo(GetLedger(), Carries(robots), positions, draws, l0, c0, i + 1,
                          foodSquareRadius, energyPerFoodItem)
    {
      ghost var prev := VisitAll(l0, c0[..i], positions[..i], draws[..i], foodSquareRadius, energyPerFoodItem);
      ghost var v := Visit(prev.0, c0[i], positions[i], draws[i], foodSquareRadius, energyPerFoodItem);
      VisitAllSnoc(l0, c0, positions, draws, foodSquareRadius, energyPerFoodItem, i);
      ghost var before := Carries(robots);
      assert before[i] == c0[i];
      var fd := robots[i].GetFoodData();
      VisitRobot(fd, positions[i], draws[i]);
      forall k | 0 <= k < |robots|
        ensures CarryOf(robots[k].foodData) == before[i := v.1][k]
      {
        if k != i {
          assert robots[k].foodData != fd;
        }
      }
      assert c0[i..][1..] == c0[i + 1..];
      ReplaceFirstOfRest(prev.1, c0[i..], v.1);
      assert Carries(robots) == before[i := v.1];
    }
  }

  /**
   * The ledger `cur` and the food records `cs` after the first `i` robots
   * of a step have been visited, starting from ledger `l0` and records `c0`.
   */
  ghost predicate VisitedUpTo(cur: Ledger, cs: seq<Carry>, positions: seq<Vec2>, draws: seq<Vec2>,
                              l0: Ledger, c0: seq<Carry>, i: nat, sqRadius: real, perItem: nat)
  {
    |positions| == |c0| && |draws| == |c0| && |cs| == |c0| && i <= |c0|
    && CarriesValid(c0, |l0.foodPos|)
    && var s := VisitAll(l0, c0[..i], positions[..i], draws[..i], sqRadius, perItem);
       cur == s.0 && cs == s.1 + c0[i..]
  }

  /** Replacing the first element after a prefix. */
  lemma ReplaceFirstOfRest<T>(a: seq<T>, b: seq<T>, x: T)
    requires |b| > 0
    ensures (a + b)[|a| := x] == (a + [x]) + b[1..]
  {
  }

  /** Once every robot is visited, the ledger and the records are those of `VisitAll`. */
  lemma VisitedEveryRobot(cur: Ledger, cs: seq<Carry>, positions: seq<Vec2>, draws: seq<Vec2>,
                          l0: Ledger, c0: seq<Carry>, sqRadius: real, perItem: nat)
    requires VisitedUpTo(cur, cs, positions, draws, l0, c0, |c0|, sqRadius, perItem)
    ensures (cur, cs) == VisitAll(l0, c0, positions, draws, sqRadius, perItem)
  {
    assert c0[..|c0|] == c0;
    assert c0[|c0|..] == [];
    assert positions[..|positions|] == positions;
    assert draws[..|draws|] == draws;
    var s := VisitAll(l0, c0, positions, draws, sqRadius, perItem);
    assert cs == s.1 + [] == s.1;
  }

  /** Visiting one more robot extends the visit of the ones before it. */
  lemma VisitAllSnoc(l: Ledger, cs: seq<Carry>, ps: seq<Vec2>, ds: seq<Vec2>, sqRadius: real, perItem: nat, i: nat)
    requires |ps| == |cs| && |ds| == |cs| && CarriesValid(cs, |l.foodPos|) && i < |cs|
    ensures var prev := VisitAll(l, cs[..i], ps[..i], ds[..i], sqRadius, perItem);
      var v := Visit(prev.0, cs[i], ps[i], ds[i], sqRadius, perItem);
      VisitAll(l, cs[..i + 1], ps[..i + 1], ds[..i + 1], sqRadius, perItem) == (v.0, prev.1 + [v.1])
  {
    assert cs[..i + 1][..i] == cs[..i] && ps[..i + 1][..i] == ps[..i] && ds[..i + 1][..i] == ds[..i];
  }

  lemma FirstWithinFromStart(foodPos: seq<Vec2>, sqRadius: real, p: Vec2, i: nat)
    requires i < |foodPos| && SqDist2(p, foodPos[i]) < sqRadius
    requires forall j :: 0 <= j < i ==> SqDist2(p, foodPos[j]) >= sqRadius
    ensures FirstItemWithin(foodPos, sqRadius, p, 0) == Some(i)
  {
  }

  lemma NoneWithin(foodPos: seq<Vec2>, sqRadius: real, p: Vec2)
    requires forall j :: 0 <= j < |foodPos| ==> SqDist2(p, foodPos[j]) >= sqRadius
    ensures FirstItemWithin(foodPos, sqRadius, p, 0) == None
  {
  }
}
