/**
 * The trajectory loop functions: every foot-bot has a list of waypoints,
 * which starts at its position, and after every step the robot's position
 * is appended when it is more than 5 cm from the list's last waypoint.
 */
module TrajectoryLoop {
  import opened Geometry

  type RobotId = string

  /** A foot-bot of the arena as the loop functions see it: its id and its current position. */
  datatype Robot = Robot(id: RobotId, position: Vec3)

  /** Two positions count as distinct when they are at least this far apart. */
  const MinDistance: real := 0.05
  const MinDistanceSquared: real := MinDistance * MinDistance

  /** The robots of the arena come from a map keyed by robot, so no id occurs twice. */
  predicate DistinctIds(robots: seq<Robot>) {
    forall i, j :: 0 <= i < j < |robots| ==> robots[i].id != robots[j].id
  }

  predicate AllPlaced(robots: seq<Robot>, w: map<RobotId, seq<Vec3>>) {
    forall i :: 0 <= i < |robots| ==> robots[i].id in w
  }

  /** Every list holds at least one waypoint, so its last one is defined. */
  predicate NonEmptyLists(w: map<RobotId, seq<Vec3>>) {
    forall id :: id in w ==> |w[id]| > 0
  }

  /** Each robot's list restarted at its current position, in the order the robots are visited. */
  function Restart(w: map<RobotId, seq<Vec3>>, robots: seq<Robot>): map<RobotId, seq<Vec3>>
    decreases |robots|
  {
    if robots == [] then w
    else
      var last := robots[|robots| - 1];
      Restart(w, robots[..|robots| - 1])[last.id := [last.position]]
  }

  /** A list after one step: extended with the position when it is far enough from the last waypoint. */
  function Extended(list: seq<Vec3>, position: Vec3): seq<Vec3>
    requires |list| > 0
  {
    if SqDist3(position, list[|list| - 1]) > MinDistanceSquared then list + [position] else list
  }

  /** All the robots' lists after one step. */
  function ExtendAll(w: map<RobotId, seq<Vec3>>, robots: seq<Robot>): map<RobotId, seq<Vec3>>
    requires NonEmptyLists(w) && AllPlaced(robots, w)
    ensures NonEmptyLists(ExtendAll(w, robots)) && ExtendAll(w, robots).Keys == w.Keys
    decreases |robots|
  {
    if robots == [] then w
    else
      var last := robots[|robots| - 1];
      var prev := ExtendAll(w, robots[..|robots| - 1]);
      prev[last.id := Extended(prev[last.id], last.position)]
  }

  /** Extending the lists for one more robot of the arena adds one Extended step. */
  lemma ExtendAllSnoc(w: map<RobotId, seq<Vec3>>, robots: seq<Robot>, i: nat)
    requires i < |robots| && NonEmptyLists(w) && AllPlaced(robots, w)
    ensures AllPlaced(robots[..i], w) && AllPlaced(robots[..i + 1], w)
    ensures robots[i].id in ExtendAll(w, robots[..i])
    ensures ExtendAll(w, robots[..i + 1]) ==
              var prev := ExtendAll(w, robots[..i]);
              prev[robots[i].id := Extended(prev[robots[i].id], robots[i].position)]
  {
    assert robots[..i + 1][..i] == robots[..i];
  }

  /** A prefix of robots with distinct ids has distinct ids. */
  lemma DistinctPrefix(robots: seq<Robot>, n: nat)
    requires DistinctIds(robots) && n <= |robots|
    ensures DistinctIds(robots[..n])
  {
    var init := robots[..n];
    forall i, j | 0 <= i < j < n ensures init[i].id != init[j].id {
      assert init[i] == robots[i] && init[j] == robots[j];
    }
  }

  /** A prefix of placed robots is placed. */
  lemma PlacedPrefix(robots: seq<Robot>, w: map<RobotId, seq<Vec3>>, n: nat)
    requires AllPlaced(robots, w) && n <= |robots|
    ensures AllPlaced(robots[..n], w)
  {
    var init := robots[..n];
    forall i | 0 <= i < n ensures init[i].id in w {
      assert init[i] == robots[i];
    }
  }

  /** After a restart robot i's list holds exactly its position. */
  lemma {:induction false} RestartAt(w: map<RobotId, seq<Vec3>>, robots: seq<Robot>, i: nat)
    requires DistinctIds(robots) && i < |robots|
    ensures robots[i].id in Restart(w, robots) && Restart(w, robots)[robots[i].id] == [robots[i].position]
  {
    var n := |robots| - 1;
    if i < n {
      DistinctPrefix(robots, n);
      RestartAt(w, robots[..n], i);
      assert robots[..n][i] == robots[i];
    }
  }

  /** A restart leaves the list of an id that no robot has untouched. */
  lemma {:induction false} RestartOther(w: map<RobotId, seq<Vec3>>, robots: seq<Robot>, id: RobotId)
    requires id in w && forall i :: 0 <= i < |robots| ==> robots[i].id != id
    ensures id in Restart(w, robots) && Restart(w, robots)[id] == w[id]
  {
    if robots != [] {
      var n := |robots| - 1;
      forall i | 0 <= i < n ensures robots[..n][i].id != id {
        assert robots[..n][i] == robots[i];
      }
      RestartOther(w, robots[..n], id);
    }
  }

  /** A restart adds exactly the robots' ids to the keys. */
  lemma {:induction false} RestartKeys(w: map<RobotId, seq<Vec3>>, robots: seq<Robot>)
    ensures Restart(w, robots).Keys == w.Keys + (set i | 0 <= i < |robots| :: robots[i].id)
  {
    if robots != [] {
      var n := |robots| - 1;
      var init := robots[..n];
      RestartKeys(w, init);
      assert (set i | 0 <= i < |robots| :: robots[i].id) == (set i | 0 <= i < n :: init[i].id) + {robots[n].id} by {
        forall i | 0 <= i < n ensures init[i] == robots[i] { }
      }
    }
  }

  /**
   * After a restart each robot's list holds exactly its position, and the
   * lists of ids that are not among the robots are untouched.
   */
  lemma RestartLists(w: map<RobotId, seq<Vec3>>, robots: seq<Robot>)
    requires DistinctIds(robots)
    ensures var r := Restart(w, robots);
      r.Keys == w.Keys + (set i | 0 <= i < |robots| :: robots[i].id)
      && (forall i :: 0 <= i < |robots| ==> r[robots[i].id] == [robots[i].position])
      && (forall id :: id in w && (forall i :: 0 <= i < |robots| ==> robots[i].id != id) ==> r[id] == w[id])
  {
    RestartKeys(w, robots);
    forall i | 0 <= i < |robots| ensures Restart(w, robots)[robots[i].id] == [robots[i].position] {
      RestartAt(w, robots, i);
    }
    forall id | id in w && (forall i :: 0 <= i < |robots| ==> robots[i].id != id) ensures Restart(w, robots)[id] == w[id] {
      RestartOther(w, robots, id);
    }
  }

  /** A step leaves the list of an id that no robot has untouched. */
  lemma {:induction false} ExtendOther(w: map<RobotId, seq<Vec3>>, robots: seq<Robot>, id: RobotId)
    requires NonEmptyLists(w) && AllPlaced(robots, w) && id in w
    requires forall i :: 0 <= i < |robots| ==> robots[i].id != id
    ensures ExtendAll(w, robots)[id] == w[id]
  {
    if robots != [] {
      var n := |robots| - 1;
      PlacedPrefix(robots, w, n);
      forall i | 0 <= i < n ensures robots[..n][i].id != id {
        assert robots[..n][i] == robots[i];
      }
      ExtendOther(w, robots[..n], id);
    }
  }

  /** After a step robot i's list is its old list extended by the rule. */
  lemma {:induction false} ExtendAt(w: map<RobotId, seq<Vec3>>, robots: seq<Robot>, i: nat)
    requires NonEmptyLists(w) && AllPlaced(robots, w) && DistinctIds(robots) && i < |robots|
    ensures ExtendAll(w, robots)[robots[i].id] == Extended(w[robots[i].id], robots[i].position)
  {
    var n := |robots| - 1;
    PlacedPrefix(robots, w, n);
    DistinctPrefix(robots, n);
    if i < n {
      ExtendAt(w, robots[..n], i);
      assert robots[..n][i] == robots[i];
    } else {
      forall k | 0 <= k < n ensures robots[..n][k].id != robots[n].id {
        assert robots[..n][k] == robots[k];
      }
      ExtendOther(w, robots[..n], robots[n].id);
    }
  }

  /**
   * After a step each robot's list is its old list extended by the rule,
   * and every other list is untouched.
   */
  lemma ExtendAllLists(w: map<RobotId, seq<Vec3>>, robots: seq<Robot>)
    requires NonEmptyLists(w) && AllPlaced(robots, w) && DistinctIds(robots)
    ensures var r := ExtendAll(w, robots);
      (forall i :: 0 <= i < |robots| ==> r[robots[i].id] == Extended(w[robots[i].id], robots[i].position))
      && (forall id :: id in w && (forall i :: 0 <= i < |robots| ==> robots[i].id != id) ==> r[id] == w[id])
  {
    forall i | 0 <= i < |robots| ensures ExtendAll(w, robots)[robots[i].id] == Extended(w[robots[i].id], robots[i].position) {
      ExtendAt(w, robots, i);
    }
    forall id | id in w && (forall i :: 0 <= i < |robots| ==> robots[i].id != id) ensures ExtendAll(w, robots)[id] == w[id] {
      ExtendOther(w, robots, id);
    }
  }

  /** An extended list keeps its waypoints and grows by at most one: the new position, when far enough. */
  lemma ExtendedGrowsByAtMostOne(list: seq<Vec3>, position: Vec3)
    requires |list| > 0
    ensures var e := Extended(list, position);
      e[..|list|] == list
      && (|e| == |list| + 1 <==> SqDist3(position, list[|list| - 1]) > MinDistanceSquared)
      && (|e| == |list| + 1 ==> e[|list|] == position)
      && |list| <= |e| <= |list| + 1
  {
  }

  class TrajectoryLoopFunctions {
    var waypoints: map<RobotId, seq<Vec3>>

    predicate Valid()
      reads this
    {
      NonEmptyLists(waypoints)
    }

    constructor()
      ensures Valid() && waypoints == map[]
    {
      waypoints := map[];
    }

    /** Gives every foot-bot a list holding its initial position. */
    method Init(robots: seq<Robot>)
      requires Valid()
      modifies this`waypoints
      ensures Valid() && waypoints == Restart(old(waypoints), robots)
    {
      RestartAll(robots);
    }

    /** Clears every foot-bot's list and puts its current position in it. */
    method Reset(robots: seq<Robot>)
      requires Valid()
      modifies this`waypoints
      ensures Valid() && waypoints == Restart(old(waypoints), robots)
    {
      RestartAll(robots);
    }

    method RestartAll(robots: seq<Robot>)
      requires Valid()
      modifies this`waypoints
      ensures Valid() && waypoints == Restart(old(waypoints), robots)
    {
      var i := 0;
      while i < |robots|
        invariant 0 <= i <= |robots|
        invariant Valid() && waypoints == Restart(old(waypoints), robots[..i])
      {
        assert robots[..i + 1][..i] == robots[..i];
        waypoints := waypoints[robots[i].id := [robots[i].position]];
        i := i + 1;
      }
      assert robots[..|robots|] == robots;
    }

    /** After every step, appends each robot's position to its list when far enough from the last waypoint. */
    method PostStep(robots: seq<Robot>)
      requires Valid() && AllPlaced(robots, waypoints)
      modifies this`waypoints
      ensures Valid() && waypoints == ExtendAll(old(waypoints), robots)
    {
      ghost var before := waypoints;
      var i := 0;
      while i < |robots|
        invariant 0 <= i <= |robots|
        invariant AllPlaced(robots[..i], before)
        invariant waypoints == ExtendAll(before, robots[..i])
      {
        ExtendAllSnoc(before, robots, i);
        ExtendTrajectory(robots[i].id, robots[i].position);
        i := i + 1;
      }
      assert robots[..|robots|] == robots;
    }

    /** Appends the position to the robot's list when it is far enough from the list's last waypoint. */
    method ExtendTrajectory(id: RobotId, position: Vec3)
      requires Valid() && id in waypoints
      modifies this`waypoints
      ensures Valid() && waypoints == old(waypoints)[id := Extended(old(waypoints)[id], position)]
    {
      var list := waypoints[id];
      if SqDist3(position, list[|list| - 1]) > MinDistanceSquared {
        waypoints := waypoints[id := list + [position]];
      }
    }
  }
}
