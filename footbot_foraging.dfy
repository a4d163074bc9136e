/**
 * The foraging foot-bot: a robot that rests in the nest, explores for
 * food, and returns to the nest, switching between these states with
 * probabilities that the outcome of its own explorations and the results
 * broadcast by resting neighbours push up or down. Every probability is
 * truncated into [0, 1] after each change.
 *
 * Sensor readings and random draws of a step are inputs: the draw of the
 * uniform generator on [0, 1), the first payload byte of every received
 * range-and-bearing packet, the four motor-ground readings, the obstacle
 * avoidance vector with its collision flag, and the vector to the light.
 * The angle and the length of a heading vector are supplied by `angleOf`
 * and `len`.
 */
module FootBotForaging {
  import opened Geometry
  import opened WheelTurning
  import opened Colors

  datatype State = Resting | Exploring | ReturningToNest

  /** What the robot tells its neighbours about its last exploration. */
  datatype ExplorationResult = NoResult | Successful | Unsuccessful

  /** The payload byte of a result: its position in the enumeration. */
  function ResultCode(r: ExplorationResult): (code: nat)
    ensures code < 3
    ensures code == 0 <==> r == NoResult
  {
    match r
    case NoResult => 0
    case Successful => 1
    case Unsuccessful => 2
  }

  /** The configured rule parameters. */
  datatype StateParams = StateParams(
    initialRestToExploreProb: real,
    initialExploreToRestProb: real,
    foodRuleExploreToRestDeltaProb: real,
    foodRuleRestToExploreDeltaProb: real,
    collisionRuleExploreToRestDeltaProb: real,
    socialRuleRestToExploreDeltaProb: real,
    socialRuleExploreToRestDeltaProb: real,
    minimumRestingTime: nat,
    minimumUnsuccessfulExploreTime: nat,
    minimumSearchForPlaceInNestTime: nat)

  /** The controller's state information. */
  datatype StateData = StateData(
    state: State,
    inNest: bool,
    restToExploreProb: real,
    exploreToRestProb: real,
    timeExploringUnsuccessfully: nat,
    timeRested: nat,
    timeSearchingForPlaceInNest: nat)

  /**
   * The state at the start of an experiment: resting in the nest with the
   * initial probabilities, and with the resting time already at its
   * minimum so that the first decision is taken at once.
   */
  function ResetStateData(p: StateParams): StateData {
    StateData(Resting, true, p.initialRestToExploreProb, p.initialExploreToRestProb,
              0, p.minimumRestingTime, 0)
  }

  /** Truncation of a value into the probability range [0, 1]. */
  function Trunc(v: real): (r: real)
    ensures 0.0 <= r <= 1.0
    ensures 0.0 <= v <= 1.0 ==> r == v
    ensures v > 1.0 ==> r == 1.0
    ensures v < 0.0 ==> r == 0.0
  {
    if v > 1.0 then 1.0 else if v < 0.0 then 0.0 else v
  }

  predicate ProbsInRange(s: StateData) {
    0.0 <= s.restToExploreProb <= 1.0 && 0.0 <= s.exploreToRestProb <= 1.0
  }

  /**
   * One probability rule: each probability moves by its delta and is
   * truncated. Whatever the deltas, both probabilities end in [0, 1]; a
   * non-negative delta never lowers an in-range probability and a
   * non-positive one never raises it; nothing else changes.
   */
  function Shift(s: StateData, toExplore: real, toRest: real): (r: StateData)
    ensures ProbsInRange(r)
    ensures r.(restToExploreProb := s.restToExploreProb, exploreToRestProb := s.exploreToRestProb) == s
    ensures toExplore >= 0.0 && s.restToExploreProb <= 1.0 ==> r.restToExploreProb >= s.restToExploreProb
    ensures toExplore <= 0.0 && s.restToExploreProb >= 0.0 ==> r.restToExploreProb <= s.restToExploreProb
    ensures toRest >= 0.0 && s.exploreToRestProb <= 1.0 ==> r.exploreToRestProb >= s.exploreToRestProb
    ensures toRest <= 0.0 && s.exploreToRestProb >= 0.0 ==> r.exploreToRestProb <= s.exploreToRestProb
  {
    s.(restToExploreProb := Trunc(s.restToExploreProb + toExplore),
       exploreToRestProb := Trunc(s.exploreToRestProb + toRest))
  }

  /**
   * The social rule for one received packet with first byte `code`: a
   * neighbour's success encourages exploring, its failure encourages
   * resting, and any other byte changes nothing.
   */
  function SocialRule(s: StateData, code: nat, p: StateParams): (r: StateData)
    ensures code != ResultCode(Successful) && code != ResultCode(Unsuccessful) ==> r == s
    ensures code == ResultCode(Successful) || code == ResultCode(Unsuccessful) ==> ProbsInRange(r)
    ensures r.(restToExploreProb := s.restToExploreProb, exploreToRestProb := s.exploreToRestProb) == s
  {
    if code == ResultCode(Successful) then
      Shift(s, p.socialRuleRestToExploreDeltaProb, -p.socialRuleExploreToRestDeltaProb)
    else if code == ResultCode(Unsuccessful) then
      Shift(s, -p.socialRuleRestToExploreDeltaProb, p.socialRuleExploreToRestDeltaProb)
    else s
  }

  /** The social rule applied for every packet, in reception order. */
  function SocialRules(s: StateData, codes: seq<nat>, p: StateParams): (r: StateData)
    ensures ProbsInRange(s) ==> ProbsInRange(r)
    ensures r.(restToExploreProb := s.restToExploreProb, exploreToRestProb := s.exploreToRestProb) == s
    decreases |codes|
  {
    if |codes| == 0 then s
    else SocialRule(SocialRules(s, codes[..|codes| - 1], p), codes[|codes| - 1], p)
  }

  /**
   * With non-negative social deltas, packets none of which reports a
   * failure never make exploring less likely nor resting more likely.
   */
  lemma {:induction false} NoBadNewsEncouragesExploring(s: StateData, codes: seq<nat>, p: StateParams)
    requires ProbsInRange(s)
    requires p.socialRuleRestToExploreDeltaProb >= 0.0 && p.socialRuleExploreToRestDeltaProb >= 0.0
    requires forall k :: 0 <= k < |codes| ==> codes[k] != ResultCode(Unsuccessful)
    ensures SocialRules(s, codes, p).restToExploreProb >= s.restToExploreProb
    ensures SocialRules(s, codes, p).exploreToRestProb <= s.exploreToRestProb
    decreases |codes|
  {
    if |codes| > 0 {
      NoBadNewsEncouragesExploring(s, codes[..|codes| - 1], p);
    }
  }

  /** The mirror image: packets none of which reports a success. */
  lemma {:induction false} NoGoodNewsEncouragesResting(s: StateData, codes: seq<nat>, p: StateParams)
    requires ProbsInRange(s)
    requires p.socialRuleRestToExploreDeltaProb >= 0.0 && p.socialRuleExploreToRestDeltaProb >= 0.0
    requires forall k :: 0 <= k < |codes| ==> codes[k] != ResultCode(Successful)
    ensures SocialRules(s, codes, p).restToExploreProb <= s.restToExploreProb
    ensures SocialRules(s, codes, p).exploreToRestProb >= s.exploreToRestProb
    decreases |codes|
  {
    if |codes| > 0 {
      NoGoodNewsEncouragesResting(s, codes[..|codes| - 1], p);
    }
  }

  /**
   * The robot is in the nest when both back ground sensors (readings 2
   * and 3) see the grey of the nest, strictly between 0.25 and 0.75.
   */
  predicate OnNestGray(ground: seq<real>)
    requires |ground| == 4
  {
    0.25 < ground[2] < 0.75 && 0.25 < ground[3] < 0.75
  }

  /** Whether a robot may give up an unsuccessful exploration at this step. */
  predicate GivesUp(s: StateData, hasFood: bool, draw: real, p: StateParams) {
    !hasFood && s.timeExploringUnsuccessfully > p.minimumUnsuccessfulExploreTime
    && draw < s.exploreToRestProb
  }

  /** The heading while exploring: away from the light inside the nest. */
  function ExploreHeading(inNest: bool, diffusion: Vec2, light: Vec2, maxSpeed: real): Vec2 {
    if inNest then Sub2(Scale2(maxSpeed, diffusion), Scale2(maxSpeed * 0.25, light))
    else Scale2(maxSpeed, diffusion)
  }

  /** The heading while returning: towards the light, avoiding obstacles. */
  function ReturnHeading(diffusion: Vec2, light: Vec2, maxSpeed: real): Vec2 {
    Add2(Scale2(maxSpeed, diffusion), Scale2(maxSpeed, light))
  }

  /** The food bookkeeping of a robot, written by the loop functions. */
  class FoodData {
    var hasFoodItem: bool
    var foodItemIdx: nat
    var totalFoodItems: nat

    constructor()
      ensures !hasFoodItem && foodItemIdx == 0 && totalFoodItems == 0
    {
      hasFoodItem := false;
      foodItemIdx := 0;
      totalFoodItems := 0;
    }

    method Reset()
      modifies this
      ensures !hasFoodItem && foodItemIdx == 0 && totalFoodItems == 0
    {
      hasFoodItem := false;
      foodItemIdx := 0;
      totalFoodItems := 0;
    }
  }

  /** What a control step reads: sensors and the uniform draw. */
  datatype Readings = Readings(
    draw: real,
    packets: seq<nat>,
    ground: seq<real>,
    diffusion: Vec2,
    collision: bool,
    light: Vec2)

  predicate ValidReadings(r: Readings) {
    0.0 <= r.draw < 1.0 && |r.ground| == 4
  }

  class FootBotForaging {
    const turningParams: TurningParams
    const stateParams: StateParams
    const foodData: FoodData
    var turning: TurningMechanism
    var stateData: StateData
    var lastExplorationResult: ExplorationResult
    /** The colour of all LEDs. */
    var leds: Color
    /** Byte 0 of the range-and-bearing payload. */
    var broadcast: nat
    var leftSpeed: real
    var rightSpeed: real

    predicate Valid() {
      ValidParams(turningParams)
    }

    predicate IsResting() reads this { stateData.state == Resting }
    predicate IsExploring() reads this { stateData.state == Exploring }
    predicate IsReturningToNest() reads this { stateData.state == ReturningToNest }

    /** The robot is always in exactly one of the three states. */
    lemma ExactlyOneState()
      ensures IsResting() || IsExploring() || IsReturningToNest()
      ensures !(IsResting() && IsExploring()) && !(IsResting() && IsReturningToNest())
      ensures !(IsExploring() && IsReturningToNest())
    {
    }

    function GetFoodData(): FoodData { foodData }

    /** Construction and initialisation: the turning mode starts as "no turn", then the robot is reset. */
    constructor(tp: TurningParams, sp: StateParams)
      requires ValidParams(tp)
      ensures Valid() && turningParams == tp && stateParams == sp
      ensures fresh(foodData)
      ensures turning == NoTurn && leftSpeed == 0.0 && rightSpeed == 0.0
      ensures stateData == ResetStateData(sp)
      ensures !foodData.hasFoodItem && foodData.foodItemIdx == 0 && foodData.totalFoodItems == 0
      ensures leds == Red && lastExplorationResult == NoResult && broadcast == ResultCode(NoResult)
    {
      turningParams := tp;
      stateParams := sp;
      foodData := new FoodData();
      turning := NoTurn;
      leftSpeed, rightSpeed := 0.0, 0.0;
      stateData := ResetStateData(sp);
      leds := Red;
      lastExplorationResult := NoResult;
      broadcast := ResultCode(NoResult);
    }

    /** Back to the start state; the turning mode and the wheels are kept. */
    method Reset()
      modifies this`stateData, this`leds, this`lastExplorationResult, this`broadcast, foodData
      ensures stateData == ResetStateData(stateParams)
      ensures !foodData.hasFoodItem && foodData.foodItemIdx == 0 && foodData.totalFoodItems == 0
      ensures leds == Red && lastExplorationResult == NoResult && broadcast == ResultCode(NoResult)
    {
      stateData := ResetStateData(stateParams);
      foodData.Reset();
      leds := Red;
      lastExplorationResult := NoResult;
      broadcast := ResultCode(NoResult);
    }

    /** Reads the back ground sensors to decide whether the robot is in the nest. */
    method UpdateState(ground: seq<real>)
      requires |ground| == 4
      modifies this`stateData
      ensures stateData == old(stateData).(inNest := OnNestGray(ground))
    {
      stateData := stateData.(inNest := false);
      if 0.25 < ground[2] && ground[2] < 0.75 && 0.25 < ground[3] && ground[3] < 0.75 {
        stateData := stateData.(inNest := true);
      }
    }

    /** Turns a heading into wheel speeds through the three-mode steering. */
    method SetWheelSpeedsFromVector(heading: Vec2, angleOf: Vec2 -> real, len: Vec2 -> real)
      requires Valid() && IsLength(len)
      modifies this`turning, this`leftSpeed, this`rightSpeed
      ensures var s := Steer(old(turning), angleOf(heading), len(heading), turningParams);
        turning == s.mechanism && leftSpeed == s.left && rightSpeed == s.right
    {
      var s := Steer(turning, angleOf(heading), len(heading), turningParams);
      turning := s.mechanism;
      leftSpeed, rightSpeed := s.left, s.right;
    }

    /**
     * Resting: after more than the minimum resting time a draw below the
     * rest-to-explore probability starts an exploration. Otherwise the
     * robot rests one step longer, stops repeating its last result after
     * the first resting step, and applies the social rule to every packet.
     */
    twostate predicate Rested(draw: real, packets: seq<nat>)
      reads this
    {
      var s := old(stateData);
      if s.timeRested > stateParams.minimumRestingTime && draw < s.restToExploreProb then
        stateData == s.(state := Exploring, timeRested := 0)
        && leds == Green && broadcast == old(broadcast)
      else
        stateData == SocialRules(s.(timeRested := s.timeRested + 1), packets, stateParams)
        && leds == old(leds)
        && broadcast == (if s.timeRested == 0 then ResultCode(NoResult) else old(broadcast))
    }

    /** The resting behaviour; its outcome is Rested. */
    method Rest(draw: real, packets: seq<nat>)
      modifies this`stateData, this`leds, this`broadcast
      ensures Rested(draw, packets)
    {
      if stateData.timeRested > stateParams.minimumRestingTime && draw < stateData.restToExploreProb {
        leds := Green;
        stateData := stateData.(state := Exploring, timeRested := 0);
      } else {
        stateData := stateData.(timeRested := stateData.timeRested + 1);
        if stateData.timeRested == 1 {
          broadcast := ResultCode(NoResult);
        }
        ghost var start, startLeds, startBroadcast := stateData, leds, broadcast;
        var i := 0;
        while i < |packets|
          invariant 0 <= i <= |packets|
          invariant leds == startLeds && broadcast == startBroadcast
          invariant stateData == SocialRules(start, packets[..i], stateParams)
        {
          assert packets[..i + 1][..i] == packets[..i];
          stateData := SocialRule(stateData, packets[i], stateParams);
          i := i + 1;
        }
        assert packets[..|packets|] == packets;
      }
    }

    /**
     * Exploring. Carrying food, the robot applies the food rule and
     * returns with a success. Without food, after more than the minimum
     * unsuccessful time a draw below the explore-to-rest probability sends
     * it back with a failure, while a higher draw applies the food rule in
     * reverse. A robot that stays explores one step longer, re-reads the
     * nest sensors, applies the collision rule when obstacle avoidance
     * triggered (lowering the rest-to-explore probability by the
     * explore-to-rest collision delta) and steers along the diffusion
     * vector, away from the light inside the nest.
     */
    twostate predicate Explored(r: Readings, angleOf: Vec2 -> real, len: Vec2 -> real)
      requires Valid() && ValidReadings(r) && IsLength(len)
      reads this, foodData
    {
      (foodData.hasFoodItem ==>
       stateData == Shift(old(stateData), stateParams.foodRuleRestToExploreDeltaProb,
                          -stateParams.foodRuleExploreToRestDeltaProb)
                    .(timeExploringUnsuccessfully := 0, timeSearchingForPlaceInNest := 0,
                      state := ReturningToNest)
       && lastExplorationResult == Successful && leds == Blue)
      && (GivesUp(old(stateData), foodData.hasFoodItem, r.draw, stateParams) ==>
       stateData == old(stateData).(timeExploringUnsuccessfully := 0, timeSearchingForPlaceInNest := 0,
                                    state := ReturningToNest)
       && lastExplorationResult == Unsuccessful && leds == Blue)
      && (foodData.hasFoodItem || GivesUp(old(stateData), foodData.hasFoodItem, r.draw, stateParams) ==>
       turning == old(turning) && leftSpeed == old(leftSpeed) && rightSpeed == old(rightSpeed))
      && (!foodData.hasFoodItem && !GivesUp(old(stateData), foodData.hasFoodItem, r.draw, stateParams) ==>
       var s0 := old(stateData);
       var s1 := if s0.timeExploringUnsuccessfully > stateParams.minimumUnsuccessfulExploreTime
                 then Shift(s0, -stateParams.foodRuleRestToExploreDeltaProb,
                            stateParams.foodRuleExploreToRestDeltaProb)
                 else s0;
       var s2 := s1.(timeExploringUnsuccessfully := s0.timeExploringUnsuccessfully + 1,
                     inNest := OnNestGray(r.ground));
       var collisionDelta := stateParams.collisionRuleExploreToRestDeltaProb;
       stateData == (if r.collision then Shift(s2, -collisionDelta, collisionDelta) else s2)
       && lastExplorationResult == old(lastExplorationResult) && leds == old(leds)
       && var s := Steer(old(turning),
                         angleOf(ExploreHeading(stateData.inNest, r.diffusion, r.light, turningParams.maxSpeed)),
                         len(ExploreHeading(stateData.inNest, r.diffusion, r.light, turningParams.maxSpeed)),
                         turningParams);
          turning == s.mechanism && leftSpeed == s.left && rightSpeed == s.right)
    }

    /** The exploring behaviour; its outcome is Explored. */
    method Explore(r: Readings, angleOf: Vec2 -> real, len: Vec2 -> real)
      requires Valid() && ValidReadings(r) && IsLength(len)
      modifies this`stateData, this`lastExplorationResult, this`leds
      modifies this`turning, this`leftSpeed, this`rightSpeed
      ensures Explored(r, angleOf, len)
    {
      var p := stateParams;
      var returnToNest := false;
      if foodData.hasFoodItem {
        stateData := Shift(stateData, p.foodRuleRestToExploreDeltaProb, -p.foodRuleExploreToRestDeltaProb);
        lastExplorationResult := Successful;
        returnToNest := true;
      } else if stateData.timeExploringUnsuccessfully > p.minimumUnsuccessfulExploreTime {
        if r.draw < stateData.exploreToRestProb {
          lastExplorationResult := Unsuccessful;
          returnToNest := true;
        } else {
          stateData := Shift(stateData, -p.foodRuleRestToExploreDeltaProb, p.foodRuleExploreToRestDeltaProb);
        }
      }
      if returnToNest {
        stateData := stateData.(timeExploringUnsuccessfully := 0, timeSearchingForPlaceInNest := 0);
        leds := Blue;
        stateData := stateData.(state := ReturningToNest);
      } else {
        stateData := stateData.(timeExploringUnsuccessfully := stateData.timeExploringUnsuccessfully + 1);
        UpdateState(r.ground);
        if r.collision {
          stateData := Shift(stateData, -p.collisionRuleExploreToRestDeltaProb,
                             p.collisionRuleExploreToRestDeltaProb);
        }
        SetWheelSpeedsFromVector(ExploreHeading(stateData.inNest, r.diffusion, r.light, turningParams.maxSpeed),
                                 angleOf, len);
      }
    }

    /**
     * Returning to the nest. Inside the nest, once the robot has searched
     * for a place longer than the minimum, it stops, broadcasts its last
     * result, turns red, rests and forgets the result; before that it
     * searches one step longer. Outside the nest the search time restarts
     * from 0. Unless it stopped, it steers towards the light.
     */
    twostate predicate Returned(r: Readings, angleOf: Vec2 -> real, len: Vec2 -> real)
      requires Valid() && ValidReadings(r) && IsLength(len)
      reads this
    {
      var s := old(stateData).(inNest := OnNestGray(r.ground));
      if s.inNest && s.timeSearchingForPlaceInNest > stateParams.minimumSearchForPlaceInNestTime then
        stateData == s.(state := Resting, timeSearchingForPlaceInNest := 0)
        && leftSpeed == 0.0 && rightSpeed == 0.0 && turning == old(turning)
        && broadcast == ResultCode(old(lastExplorationResult))
        && leds == Red && lastExplorationResult == NoResult
      else
        stateData == s.(timeSearchingForPlaceInNest :=
                          if s.inNest then s.timeSearchingForPlaceInNest + 1 else 0)
        && broadcast == old(broadcast) && leds == old(leds)
        && lastExplorationResult == old(lastExplorationResult)
        && var st := Steer(old(turning), angleOf(ReturnHeading(r.diffusion, r.light, turningParams.maxSpeed)),
                           len(ReturnHeading(r.diffusion, r.light, turningParams.maxSpeed)), turningParams);
           turning == st.mechanism && leftSpeed == st.left && rightSpeed == st.right
    }

    /** The behaviour on the way back to the nest; its outcome is Returned. */
    method ReturnToNest(r: Readings, angleOf: Vec2 -> real, len: Vec2 -> real)
      requires Valid() && ValidReadings(r) && IsLength(len)
      modifies this`stateData, this`lastExplorationResult, this`leds, this`broadcast
      modifies this`turning, this`leftSpeed, this`rightSpeed
      ensures Returned(r, angleOf, len)
    {
      UpdateState(r.ground);
      if stateData.inNest {
        if stateData.timeSearchingForPlaceInNest > stateParams.minimumSearchForPlaceInNestTime {
          leftSpeed, rightSpeed := 0.0, 0.0;
          broadcast := ResultCode(lastExplorationResult);
          leds := Red;
          stateData := stateData.(state := Resting, timeSearchingForPlaceInNest := 0);
          lastExplorationResult := NoResult;
          return;
        } else {
          stateData := stateData.(timeSearchingForPlaceInNest := stateData.timeSearchingForPlaceInNest + 1);
        }
      } else {
        stateData := stateData.(timeSearchingForPlaceInNest := 0);
      }
      SetWheelSpeedsFromVector(ReturnHeading(r.diffusion, r.light, turningParams.maxSpeed), angleOf, len);
    }

    /**
     * One control step: the behaviour of the current state. The states
     * follow the cycle resting, exploring, returning to the nest, each
     * step either staying or moving to the next one, and probabilities
     * that start in [0, 1] stay there.
     */
    method ControlStep(r: Readings, angleOf: Vec2 -> real, len: Vec2 -> real)
      requires Valid() && ValidReadings(r) && IsLength(len)
      modifies this`stateData, this`lastExplorationResult, this`leds, this`broadcast
      modifies this`turning, this`leftSpeed, this`rightSpeed
      ensures old(stateData.state) == Resting ==> stateData.state in {Resting, Exploring}
      ensures old(stateData.state) == Exploring ==> stateData.state in {Exploring, ReturningToNest}
      ensures old(stateData.state) == ReturningToNest ==> stateData.state in {ReturningToNest, Resting}
      ensures old(ProbsInRange(stateData)) ==> ProbsInRange(stateData)
      ensures old(stateData.state) == Resting ==>
        turning == old(turning) && leftSpeed == old(leftSpeed) && rightSpeed == old(rightSpeed)
        && lastExplorationResult == old(lastExplorationResult) && Rested(r.draw, r.packets)
      ensures old(stateData.state) == Exploring ==> broadcast == old(broadcast) && Explored(r, angleOf, len)
      ensures old(stateData.state) == ReturningToNest ==> Returned(r, angleOf, len)
    {
      match stateData.state
      case Resting => Rest(r.draw, r.packets);
      case Exploring => Explore(r, angleOf, len);
      case ReturningToNest => ReturnToNest(r, angleOf, len);
    }
  }
}
