/**
 * The custom distributions loop functions: at initialisation they read a
 * list of distributions and add foot-bots to the arena for each, in a
 * line, scattered in a square cluster, or in a scale-free layout in
 * which each new robot is placed near a pivot picked among those already
 * placed. Robots are named "fb" followed by a running number.
 *
 * The simulator's collision check for moving a robot is an input
 * (`free`), and so are the random draws, indexed by the robot's running
 * number and the trial number.
 */
module CustomDistributions {
  import opened Wrappers
  import opened Geometry
  import opened ScaleFree

  const MaxPlaceTrials: nat := 20
  const MaxRobotTrials: nat := 20

  /* Robot ids */

  predicate IsDigit(c: char) {
    '0' <= c <= '9'
  }

  predicate AllDigits(s: string) {
    forall i :: 0 <= i < |s| ==> IsDigit(s[i])
  }

  function DigitChar(d: nat): (c: char)
    requires d < 10
    ensures IsDigit(c)
  {
    ('0' as int + d) as char
  }

  /** The decimal representation of `n`, without leading zeros. */
  function Decimal(n: nat): (s: string)
    ensures |s| > 0 && AllDigits(s)
  {
    if n < 10 then [DigitChar(n)] else Decimal(n / 10) + [DigitChar(n % 10)]
  }

  /** Reads a string of decimal digits back as a number. */
  function ParseDecimal(s: string): nat
    requires AllDigits(s)
  {
    if s == [] then 0
    else ParseDecimal(s[..|s| - 1]) * 10 + (s[|s| - 1] as int - '0' as int)
  }

  lemma {:induction false} DecimalRoundTrip(n: nat)
    ensures ParseDecimal(Decimal(n)) == n
  {
    if n >= 10 {
      var s := Decimal(n);
      assert s[..|s| - 1] == Decimal(n / 10);
      DecimalRoundTrip(n / 10);
    }
  }

  function RobotId(n: nat): string {
    "fb" + Decimal(n)
  }

  /** Different running numbers give different ids. */
  lemma RobotIdInjective(m: nat, n: nat)
    requires RobotId(m) == RobotId(n)
    ensures m == n
  {
    assert RobotId(m)[2..] == Decimal(m);
    assert RobotId(n)[2..] == Decimal(n);
    DecimalRoundTrip(m);
    DecimalRoundTrip(n);
  }

  /* Arena */

  /** A foot-bot added to the arena: its id and its position. */
  datatype Placed = Placed(id: string, position: Vec3)

  /** A distribution node: its kind, centre, number of robots, and its own parameter (distance, density or range). */
  datatype Distribution = Distribution(kind: string, center: Vec2, robots: nat, parameter: real)

  predicate KnownKind(kind: string) {
    kind == "line" || kind == "cluster" || kind == "scalefree"
  }

  predicate AllKnown(dists: seq<Distribution>) {
    forall d :: 0 <= d < |dists| ==> KnownKind(dists[d].kind)
  }

  lemma KnownPrefix(dists: seq<Distribution>, d: nat)
    requires d < |dists|
    ensures AllKnown(dists[..d + 1]) == (AllKnown(dists[..d]) && KnownKind(dists[d].kind))
  {
    assert dists[..d + 1][d] == dists[d];
  }

  /** The robots of the distributions together. */
  function Total(dists: seq<Distribution>): nat
    decreases |dists|
  {
    if dists == [] then 0 else Total(dists[..|dists| - 1]) + dists[|dists| - 1].robots
  }

  /** The k-th robot of `ps` is named after running number start + k. */
  predicate IdsFrom(ps: seq<Placed>, start: nat) {
    forall k :: 0 <= k < |ps| ==> ps[k].id == RobotId(start + k)
  }

  /** Robots named from a running number have pairwise distinct ids. */
  lemma IdsFromDistinct(ps: seq<Placed>, start: nat)
    requires IdsFrom(ps, start)
    ensures forall i, j :: 0 <= i < j < |ps| ==> ps[i].id != ps[j].id
  {
    forall i, j | 0 <= i < j < |ps|
      ensures ps[i].id != ps[j].id
    {
      if ps[i].id == ps[j].id {
        RobotIdInjective(start + i, start + j);
      }
    }
  }

  /** `after` is `before` with n robots appended, numbered from `start`. */
  predicate AppendedFrom(before: seq<Placed>, after: seq<Placed>, n: nat, start: nat) {
    |after| == |before| + n && after[..|before|] == before && IdsFrom(after[|before|..], start)
  }

  /** Appending runs of robots numbered contiguously gives one contiguous run. */
  lemma AppendedTwice(a: seq<Placed>, b: seq<Placed>, c: seq<Placed>, m: nat, n: nat, start: nat)
    requires AppendedFrom(a, b, m, start) && AppendedFrom(b, c, n, start + m)
    ensures AppendedFrom(a, c, m + n, start)
  {
    assert c[..|a|] == b[..|a|];
    forall k | 0 <= k < m + n
      ensures c[|a|..][k].id == RobotId(start + k)
    {
      if k < m {
        assert c[|a|..][k] == b[|a|..][k];
      } else {
        assert c[|a|..][k] == c[|b|..][k - m];
      }
    }
  }

  /** The error a robot that cannot be placed raises. */
  predicate CantPlace(message: string, number: nat) {
    message == "Can't place " + RobotId(number)
  }

  /** The draws for robot k of a distribution numbered from `start`, at its trial `t`. */
  function Draw2(draw: (nat, nat) -> Vec2, start: nat, k: nat, t: nat): Vec2 {
    draw(start + k, t)
  }

  /** The draws for robot k of a distribution numbered from `start`, at its pivot trial `pt` and position trial `t`. */
  function Draw3(draw: (nat, nat, nat) -> Vec2, start: nat, k: nat, pt: nat, t: nat): Vec2 {
    draw(start + k, pt, t)
  }

  /** A uniform draw of two coordinates on [-h, h]. */
  predicate WithinSquare(d: Vec2, h: real) {
    -h <= d.x <= h && -h <= d.y <= h
  }

  /**
   * What the arena holds while robot k of a distribution is being placed:
   * the robots added before the distribution, its first k robots, and
   * robot k itself, added at the origin.
   */
  function Arena(before: seq<Placed>, added: seq<Placed>, start: nat, k: nat): seq<Placed>
    requires k <= |added|
  {
    before + added[..k] + [Placed(RobotId(start + k), Zero3)]
  }

  /** The arena of an earlier robot is the same once more robots follow. */
  lemma ArenaOfPrefix(before: seq<Placed>, added: seq<Placed>, more: seq<Placed>, start: nat, k: nat)
    requires k <= |added|
    ensures Arena(before, added + more, start, k) == Arena(before, added, start, k)
  {
    assert (added + more)[..k] == added[..k];
  }

  /* Retries */

  /**
   * Tries positions 1, 2, ... until one fits, making at most
   * MaxPlaceTrials + 1 attempts.
   */
  method TryPlacements(fits: nat -> bool) returns (trials: nat, done: bool)
    ensures 1 <= trials <= MaxPlaceTrials + 1
    ensures done == fits(trials)
    ensures forall j :: 1 <= j < trials ==> !fits(j)
    ensures !done ==> trials == MaxPlaceTrials + 1
  {
    trials := 1;
    done := fits(trials);
    while !done && trials <= MaxPlaceTrials
      invariant 1 <= trials <= MaxPlaceTrials + 1
      invariant done == fits(trials)
      invariant forall j :: 1 <= j < trials ==> !fits(j)
    {
      trials := trials + 1;
      done := fits(trials);
    }
  }

  /* Positions */

  /** Robot i of a line is placed i metres further along both axes; the configured distance is not used. */
  function LinePosition(center: Vec2, i: nat): Vec3 {
    Vec3(i as real + center.x, i as real + center.y, 0.0)
  }

  /** A cluster position: the centre moved by two uniform draws on the cluster's square. */
  function ClusterPosition(center: Vec2, d: Vec2): Vec3 {
    Vec3(d.x + center.x, d.y + center.y, 0.0)
  }

  /* Clusters */

  /** A foot-bot's footprint: a disc of radius 0.085036758 m. */
  const FootBotRadius: real := 0.085036758
  const Pi: real := 3.14159265358979323846
  const FootBotArea: real := Pi * FootBotRadius * FootBotRadius

  /** The area n foot-bots take up at the given density. */
  function ClusterArea(n: nat, density: real): real
    requires density > 0.0
  {
    FootBotArea * n as real / density
  }

  /** `root(x)` is the square root of x. */
  predicate IsRootOf(root: real -> real, x: real) {
    root(x) >= 0.0 && root(x) * root(x) == x
  }

  /** Half the side of the square a cluster is scattered on: half the square root of its area. */
  function HalfSide(root: real -> real, n: nat, density: real): real
    requires density > 0.0
  {
    root(ClusterArea(n, density)) / 2.0
  }

  /** The cluster's square holds n footprints at the configured density. */
  lemma ClusterSquareArea(root: real -> real, n: nat, density: real)
    requires density > 0.0 && IsRootOf(root, ClusterArea(n, density))
    ensures HalfSide(root, n, density) >= 0.0
    ensures (2.0 * HalfSide(root, n, density)) * (2.0 * HalfSide(root, n, density)) * density
            == FootBotArea * n as real
  {
    var side := root(ClusterArea(n, density));
    assert 2.0 * HalfSide(root, n, density) == side;
    assert side * side == FootBotArea * n as real / density;
  }

  /**
   * What a cluster needs of its inputs: a positive density, the square
   * root of its area, and for each of its robots draws on the square.
   */
  ghost predicate ClusterDrawsFit(n: nat, density: real, start: nat, root: real -> real, draw: (nat, nat) -> Vec2) {
    density > 0.0 && IsRootOf(root, ClusterArea(n, density))
    && forall k, t :: 0 <= k < n ==> WithinSquare(Draw2(draw, start, k, t), HalfSide(root, n, density))
  }

  /** The position is on the square of half-side h around the centre, on the ground. */
  predicate InSquareAround(p: Vec3, center: Vec2, h: real) {
    -h <= p.x - center.x <= h && -h <= p.y - center.y <= h && p.z == 0.0
  }

  /** Candidate t of robot k of a cluster is free in the arena. */
  predicate ClusterFits(arena: seq<Placed>, center: Vec2, draw: (nat, nat) -> Vec2, start: nat, k: nat, t: nat,
                        free: (seq<Placed>, Vec3) -> bool) {
    free(arena, ClusterPosition(center, Draw2(draw, start, k, t)))
  }

  /**
   * Robot k of a cluster went to the first of its MaxPlaceTrials + 1
   * candidate positions that is free in the arena of its placement.
   */
  predicate ClusterFirstFit(before: seq<Placed>, added: seq<Placed>, k: nat, center: Vec2, draw: (nat, nat) -> Vec2,
                            start: nat, free: (seq<Placed>, Vec3) -> bool)
    requires k < |added|
  {
    exists t :: 1 <= t <= MaxPlaceTrials + 1 && added[k].position == ClusterPosition(center, Draw2(draw, start, k, t))
      && ClusterFits(Arena(before, added, start, k), center, draw, start, k, t, free)
      && forall j :: 1 <= j < t ==> !ClusterFits(Arena(before, added, start, k), center, draw, start, k, j, free)
  }

  /** None of the MaxPlaceTrials + 1 candidates of robot k is free. */
  predicate ClusterNoFit(arena: seq<Placed>, center: Vec2, draw: (nat, nat) -> Vec2, start: nat, k: nat,
                         free: (seq<Placed>, Vec3) -> bool) {
    forall t :: 1 <= t <= MaxPlaceTrials + 1 ==> !ClusterFits(arena, center, draw, start, k, t, free)
  }

  /**
   * Placing a cluster of n robots after `before` stopped at robot k: the
   * robots before it are at their first fits, and k, reported in `message`,
   * stays at the origin because none of its candidates was free.
   */
  ghost predicate ClusterStuckAt(before: seq<Placed>, placed: seq<Placed>, message: string, center: Vec2, n: nat,
                                 draw: (nat, nat) -> Vec2, start: nat, free: (seq<Placed>, Vec3) -> bool)
  {
    |before| + 1 <= |placed| <= |before| + n
    && AppendedFrom(before, placed, |placed| - |before|, start)
    && CantPlace(message, start + |placed| - |before| - 1)
    && (forall j :: 0 <= j < |placed| - |before| - 1 ==>
          ClusterFirstFit(before, placed[|before|..], j, center, draw, start, free))
    && placed[|placed| - 1].position == Zero3
    && ClusterNoFit(placed, center, draw, start, |placed| - |before| - 1, free)
  }

  /**
   * A cluster whose next robot fits nowhere: that robot stays at the origin
   * after the robots at their first fits, and is the one reported.
   */
  lemma ClusterStuck(before: seq<Placed>, added: seq<Placed>, placed: seq<Placed>, message: string, center: Vec2,
                     n: nat, draw: (nat, nat) -> Vec2, start: nat, free: (seq<Placed>, Vec3) -> bool)
    requires |added| < n && placed == before + added + [Placed(RobotId(|added| + start), Zero3)]
    requires message == "Can't place " + RobotId(|added| + start)
    requires IdsFrom(added, start)
    requires forall k :: 0 <= k < |added| ==> ClusterFirstFit(before, added, k, center, draw, start, free)
    requires ClusterNoFit(placed, center, draw, start, |added|, free)
    ensures ClusterStuckAt(before, placed, message, center, n, draw, start, free)
  {
    var x := Placed(RobotId(|added| + start), Zero3);
    assert placed[|before|..] == added + [x];
    forall j | 0 <= j < |added|
      ensures ClusterFirstFit(before, added + [x], j, center, draw, start, free)
    {
      ClusterFirstFitKept(before, added, x, j, center, draw, start, free);
    }
  }

  /** A robot placed at its first fit extends a cluster whose robots are all at their first fits. */
  lemma ClusterPlaced(before: seq<Placed>, added: seq<Placed>, x: Placed, center: Vec2, draw: (nat, nat) -> Vec2,
                      start: nat, free: (seq<Placed>, Vec3) -> bool, t: nat)
    requires forall k :: 0 <= k < |added| ==> ClusterFirstFit(before, added, k, center, draw, start, free)
    requires 1 <= t <= MaxPlaceTrials + 1 && x.position == ClusterPosition(center, Draw2(draw, start, |added|, t))
    requires ClusterFits(Arena(before, added, start, |added|), center, draw, start, |added|, t, free)
    requires forall j :: 1 <= j < t ==> !ClusterFits(Arena(before, added, start, |added|), center, draw, start, |added|, j, free)
    ensures forall k :: 0 <= k <= |added| ==> ClusterFirstFit(before, added + [x], k, center, draw, start, free)
  {
    forall k | 0 <= k <= |added|
      ensures ClusterFirstFit(before, added + [x], k, center, draw, start, free)
    {
      if k < |added| {
        ClusterFirstFitKept(before, added, x, k, center, draw, start, free);
      } else {
        ArenaOfPrefix(before, added, [x], start, k);
        assert (added + [x])[k] == x;
      }
    }
  }

  /** A robot's first fit stays as it was when more robots follow it. */
  lemma ClusterFirstFitKept(before: seq<Placed>, added: seq<Placed>, x: Placed, k: nat, center: Vec2,
                            draw: (nat, nat) -> Vec2, start: nat, free: (seq<Placed>, Vec3) -> bool)
    requires k < |added| && ClusterFirstFit(before, added, k, center, draw, start, free)
    ensures ClusterFirstFit(before, added + [x], k, center, draw, start, free)
  {
    ArenaOfPrefix(before, added, [x], start, k);
    assert (added + [x])[k] == added[k];
  }

  /**
   * Where the scale-free layout tries a new robot: the pivot moved by the
   * two generated coordinates, which places the robot within reach of
   * its pivot.
   */
  function ScaleFreeCandidate(pivot: Vec3, d: Vec2, h: real): Vec3 {
    Vec3(pivot.x + GenerateCoordinate(d.x, h), pivot.y + GenerateCoordinate(d.y, h), pivot.z)
  }

  /** The candidate position as the source computes it: the distribution's centre is added on top of the pivot. */
  function ScaleFreeCandidateAsWritten(center: Vec2, pivot: Vec3, d: Vec2, h: real): Vec3 {
    Vec3(GenerateCoordinate(d.x, h) + center.x + pivot.x, GenerateCoordinate(d.y, h) + center.y + pivot.y, 0.0 + pivot.z)
  }

  /** A new robot is between h and 2h away from its pivot on each axis. */
  predicate WithinReach(p: Vec3, pivot: Vec3, h: real) {
    var dx := p.x - pivot.x;
    var dy := p.y - pivot.y;
    (h <= dx <= 2.0 * h || -2.0 * h <= dx <= -h)
    && (h <= dy <= 2.0 * h || -2.0 * h <= dy <= -h)
    && p.z == pivot.z
  }

  /** For draws on [-h, h] the candidate is within reach of its pivot, whatever the centre. */
  lemma CandidateWithinReach(pivot: Vec3, d: Vec2, h: real)
    requires h >= 0.0 && -h <= d.x <= h && -h <= d.y <= h
    ensures WithinReach(ScaleFreeCandidate(pivot, d, h), pivot, h)
  {
  }

  /**
   * As written, with the centre at (10, 0) and the first robot (the pivot)
   * placed at the centre, a range of 1 and draws of 0.1, the candidate is
   * 10.6 m from its pivot along x, far out of its range.
   */
  lemma CandidateAsWrittenOutOfReach()
    ensures var center := Vec2(10.0, 0.0);
      var pivot := Vec3(10.0, 0.0, 0.0);
      var p := ScaleFreeCandidateAsWritten(center, pivot, Vec2(0.1, 0.1), 0.5);
      p == Vec3(20.6, 0.6, 0.0) && !WithinReach(p, pivot, 0.5)
  {
  }

  /* Robot counts */

  /** How many robots the source places for a distribution: the scale-free layout always places its first robot. */
  function PlacedCountAsWritten(d: Distribution): nat {
    if d.kind == "scalefree" && d.robots == 0 then 1 else d.robots
  }

  /** The ids the source gives, distribution by distribution, while its running count grows by the configured number. */
  function IdsAsWritten(dists: seq<Distribution>, count: nat): seq<string>
    decreases |dists|
  {
    if dists == [] then []
    else
      var d := dists[0];
      seq(PlacedCountAsWritten(d), k requires 0 <= k => RobotId(count + k)) + IdsAsWritten(dists[1..], count + d.robots)
  }

  /** As written, an empty scale-free distribution followed by a line of one robot names two robots "fb0". */
  lemma EmptyScaleFreeReusesId()
    ensures var ids := IdsAsWritten([Distribution("scalefree", Vec2(0.0, 0.0), 0, 1.0),
                                     Distribution("line", Vec2(0.0, 0.0), 1, 1.0)], 0);
      |ids| == 2 && ids[0] == ids[1] == "fb0"
  {
    var line := [Distribution("line", Vec2(0.0, 0.0), 1, 1.0)];
    assert IdsAsWritten(line, 0) == [RobotId(0)];
  }

  /* Scale-free layouts */

  /**
   * What a scale-free placement depends on besides the robots: the running
   * number of its first robot, half its range, the simulator's collision
   * check and the draws (the pivot draw per robot and pivot trial, the two
   * offset draws per robot, pivot trial and position trial).
   */
  datatype SFContext = SFContext(start: nat, h: real, free: (seq<Placed>, Vec3) -> bool,
                                 pivotDraw: (nat, nat) -> nat, offsetDraw: (nat, nat, nat) -> Vec2)

  /** The offsets every robot after the first draws are uniform on [-h, h]. */
  ghost predicate OffsetDrawsFit(n: nat, c: SFContext) {
    forall k, pt, t :: 1 <= k < n ==> WithinSquare(Draw3(c.offsetDraw, c.start, k, pt, t), c.h)
  }

  /** Candidate t of robot k at pivot trial pt, near entry p. */
  function Candidate(entries: seq<Entry>, p: nat, k: nat, pt: nat, t: nat, c: SFContext): Vec3
    requires p < |entries|
  {
    ScaleFreeCandidate(entries[p].pos, Draw3(c.offsetDraw, c.start, k, pt, t), c.h)
  }

  /**
   * Pivot trial pt of robot k fails: none of the MaxPlaceTrials + 1
   * candidates near the entry its pivot draw falls on is free.
   */
  predicate PivotTrialFails(entries: seq<Entry>, arena: seq<Placed>, k: nat, pt: nat, c: SFContext) {
    forall p, t :: 0 <= p < |entries| && Covers(entries, p, c.pivotDraw(c.start + k, pt)) && 1 <= t <= MaxPlaceTrials + 1
      ==> !c.free(arena, Candidate(entries, p, k, pt, t, c))
  }

  /** Each of the MaxRobotTrials + 1 pivot trials of robot k fails. */
  predicate AllPivotTrialsFail(entries: seq<Entry>, arena: seq<Placed>, k: nat, c: SFContext) {
    forall q :: 1 <= q <= MaxRobotTrials + 1 ==> PivotTrialFails(entries, arena, k, q, c)
  }

  /**
   * Robot k went to candidate t of pivot trial pt: the pivot is the entry
   * the trial's draw falls on, the candidate is free, the ones before it
   * for the same pivot are not, and every earlier pivot trial failed.
   */
  predicate FirstFitNear(entries: seq<Entry>, arena: seq<Placed>, k: nat, c: SFContext,
                         pivot: nat, pt: nat, t: nat, pos: Vec3) {
    pivot < |entries| && 1 <= pt <= MaxRobotTrials + 1 && 1 <= t <= MaxPlaceTrials + 1
    && Covers(entries, pivot, c.pivotDraw(c.start + k, pt))
    && pos == Candidate(entries, pivot, k, pt, t, c)
    && c.free(arena, pos)
    && (forall j :: 1 <= j < t ==> !c.free(arena, Candidate(entries, pivot, k, pt, j, c)))
    && (forall q :: 1 <= q < pt ==> PivotTrialFails(entries, arena, k, q, c))
  }

  /**
   * The pivot list after the robots of `added` were stored, robot i >= 1
   * having been connected to entry `pivots[i - 1]`.
   */
  function EntriesOf(added: seq<Placed>, pivots: seq<nat>): (e: seq<Entry>)
    requires added != [] && |pivots| == |added| - 1
    requires forall i :: 0 <= i < |pivots| ==> pivots[i] <= i
    ensures |e| == |added|
    ensures forall k :: 0 <= k < |e| ==> e[k].pos == added[k].position
    decreases |added|
  {
    if |added| == 1 then [Entry(1, added[0].position)]
    else
      var prev := EntriesOf(added[..|added| - 1], pivots[..|pivots| - 1]);
      Connected(prev, pivots[|pivots| - 1], added[|added| - 1].position)
  }

  /**
   * The scale-free layout so far: robots numbered from the start, and every
   * robot k after the first at the first fit near the pivot `pivots[k - 1]`,
   * at the trials `trials[k - 1]`, in the pivot list and the arena as they
   * were when it was placed.
   */
  predicate ScaleFreeLayout(before: seq<Placed>, added: seq<Placed>, pivots: seq<nat>, trials: seq<(nat, nat)>,
                            c: SFContext) {
    added != [] && |pivots| == |added| - 1 && |trials| == |added| - 1
    && (forall i :: 0 <= i < |pivots| ==> pivots[i] <= i)
    && IdsFrom(added, c.start)
    && forall k :: 1 <= k < |added| ==> RobotFits(before, added, pivots, trials, c, k)
  }

  /**
   * Robot k of a layout is at the first fit near its pivot, at its trials,
   * in the pivot list and the arena as they were when it was placed.
   */
  predicate RobotFits(before: seq<Placed>, added: seq<Placed>, pivots: seq<nat>, trials: seq<(nat, nat)>,
                      c: SFContext, k: nat)
    requires 1 <= k < |added| && |pivots| == |added| - 1 && |trials| == |added| - 1
    requires forall i :: 0 <= i < |pivots| ==> pivots[i] <= i
  {
    FirstFitNear(EntriesOf(added[..k], pivots[..k - 1]), Arena(before, added, c.start, k), k, c,
                 pivots[k - 1], trials[k - 1].0, trials[k - 1].1, added[k].position)
  }

  /** Some pivots and trials make the robots a scale-free layout. */
  ghost predicate SomeScaleFreeLayout(before: seq<Placed>, added: seq<Placed>, c: SFContext) {
    exists pivots, trials :: ScaleFreeLayout(before, added, pivots, trials, c)
  }

  /** Every robot after the first is within reach of its pivot. */
  predicate NearPivots(added: seq<Placed>, pivots: seq<nat>, h: real)
    requires |pivots| == |added| - 1 && forall i :: 0 <= i < |pivots| ==> pivots[i] <= i
  {
    forall k {:trigger added[k]} :: 1 <= k < |added| ==> WithinReach(added[k].position, added[pivots[k - 1]].position, h)
  }

  /** For offset draws on [-h, h], every robot of the layout after the first is within reach of its pivot. */
  lemma LayoutWithinReach(before: seq<Placed>, added: seq<Placed>, pivots: seq<nat>, trials: seq<(nat, nat)>,
                          c: SFContext)
    requires ScaleFreeLayout(before, added, pivots, trials, c) && OffsetDrawsFit(|added|, c)
    ensures NearPivots(added, pivots, c.h)
  {
    forall k {:trigger added[k]} | 1 <= k < |added|
      ensures WithinReach(added[k].position, added[pivots[k - 1]].position, c.h)
    {
      var e := EntriesOf(added[..k], pivots[..k - 1]);
      var p, pt, t := pivots[k - 1], trials[k - 1].0, trials[k - 1].1;
      assert RobotFits(before, added, pivots, trials, c, k);
      assert e[p].pos == added[..k][p].position == added[p].position;
      var d := Draw3(c.offsetDraw, c.start, k, pt, t);
      assert WithinSquare(d, c.h);
      CandidateWithinReach(e[p].pos, d, c.h);
    }
  }

  /**
   * One pivot trial of the scale-free layout: picks a pivot with the draw
   * for this trial, then tries positions within its reach.
   */
  method TryPivot(data: SFData, arena: seq<Placed>, k: nat, pt: nat, c: SFContext)
    returns (pivot: nat, trials: nat, done: bool)
    requires data.entries != []
    ensures pivot < |data.entries| && Covers(data.entries, pivot, c.pivotDraw(c.start + k, pt))
    ensures 1 <= trials <= MaxPlaceTrials + 1
    ensures done ==> (c.free(arena, Candidate(data.entries, pivot, k, pt, trials, c))
                      && forall j :: 1 <= j < trials ==> !c.free(arena, Candidate(data.entries, pivot, k, pt, j, c)))
    ensures !done ==> trials == MaxPlaceTrials + 1 && PivotTrialFails(data.entries, arena, k, pt, c)
  {
    var draw := c.pivotDraw(c.start + k, pt);
    var picked := data.Pick(draw);
    pivot := picked.value;
    var e := data.entries;
    if |e| == 1 {
      assert e[..0] == [];
    }
    assert Covers(e, pivot, draw);
    var fits := (t: nat) => c.free(arena, Candidate(e, pivot, k, pt, t, c));
    trials, done := TryPlacements(fits);
    assert forall t: nat :: fits(t) == c.free(arena, Candidate(e, pivot, k, pt, t, c));
    if !done {
      forall p, t | 0 <= p < |e| && Covers(e, p, draw) && 1 <= t <= MaxPlaceTrials + 1
        ensures !c.free(arena, Candidate(e, p, k, pt, t, c))
      {
        CoversUnique(e, p, pivot, draw);
      }
    }
  }

  /**
   * The pivot trials for one robot of the scale-free layout: at most
   * MaxRobotTrials + 1 pivots, until a position near one fits.
   */
  method PivotTrials(data: SFData, arena: seq<Placed>, k: nat, c: SFContext)
    returns (pivot: nat, robotTrials: nat, placeTrials: nat, done: bool)
    requires data.entries != []
    ensures 1 <= robotTrials <= MaxRobotTrials + 1 && 1 <= placeTrials <= MaxPlaceTrials + 1
    ensures pivot < |data.entries|
    ensures done ==> FirstFitNear(data.entries, arena, k, c, pivot, robotTrials, placeTrials,
                                  Candidate(data.entries, pivot, k, robotTrials, placeTrials, c))
    ensures !done ==> AllPivotTrialsFail(data.entries, arena, k, c)
  {
    ghost var entries := data.entries;
    robotTrials := 1;
    pivot, placeTrials, done := TryPivot(data, arena, k, robotTrials, c);
    while !done && robotTrials <= MaxRobotTrials
      invariant 1 <= robotTrials <= MaxRobotTrials + 1
      invariant pivot < |entries| && 1 <= placeTrials <= MaxPlaceTrials + 1
      invariant done ==> FirstFitNear(entries, arena, k, c, pivot, robotTrials, placeTrials,
                                      Candidate(entries, pivot, k, robotTrials, placeTrials, c))
      invariant !done ==> forall q :: 1 <= q <= robotTrials ==> PivotTrialFails(entries, arena, k, q, c)
    {
      robotTrials := robotTrials + 1;
      pivot, placeTrials, done := TryPivot(data, arena, k, robotTrials, c);
    }
  }

  /** Connecting a robot placed at its first fit near a pivot extends the layout by that robot. */
  lemma LayoutConnected(before: seq<Placed>, added: seq<Placed>, next: seq<Placed>, pivots: seq<nat>,
                        trials: seq<(nat, nat)>, c: SFContext, pivot: nat, pt: nat, t: nat, pos: Vec3)
    requires ScaleFreeLayout(before, added, pivots, trials, c)
    requires FirstFitNear(EntriesOf(added, pivots), Arena(before, added, c.start, |added|), |added|, c, pivot, pt, t, pos)
    requires next == added + [Placed(RobotId(c.start + |added|), pos)]
    ensures ScaleFreeLayout(before, next, pivots + [pivot], trials + [(pt, t)], c)
    ensures EntriesOf(next, pivots + [pivot]) == Connected(EntriesOf(added, pivots), pivot, pos)
  {
    var x := Placed(RobotId(c.start + |added|), pos);
    var pivots', trials' := pivots + [pivot], trials + [(pt, t)];
    SnocLast(added, x);
    SnocLast(pivots, pivot);
    LayoutRobotsFit(before, added, pivots, trials, c, pivot, pt, t, pos, next, pivots', trials');
    assert IdsFrom(next, c.start);
    assert forall i :: 0 <= i < |pivots'| ==> pivots'[i] <= i;
  }

  /** Every robot after the first still fits in the layout extended by one robot. */
  lemma LayoutRobotsFit(before: seq<Placed>, added: seq<Placed>, pivots: seq<nat>, trials: seq<(nat, nat)>,
                        c: SFContext, pivot: nat, pt: nat, t: nat, pos: Vec3,
                        next: seq<Placed>, pivots': seq<nat>, trials': seq<(nat, nat)>)
    requires ScaleFreeLayout(before, added, pivots, trials, c)
    requires FirstFitNear(EntriesOf(added, pivots), Arena(before, added, c.start, |added|), |added|, c, pivot, pt, t, pos)
    requires pivot <= |pivots|
    requires next == added + [Placed(RobotId(c.start + |added|), pos)]
    requires pivots' == pivots + [pivot] && trials' == trials + [(pt, t)]
    ensures forall k :: 1 <= k < |next| ==> RobotFits(before, next, pivots', trials', c, k)
  {
    var x := Placed(RobotId(c.start + |added|), pos);
    SnocLast(added, x);
    SnocLast(pivots, pivot);
    forall k | 1 <= k < |next|
      ensures RobotFits(before, next, pivots', trials', c, k)
    {
      if k < |added| {
        LayoutRobotKept(before, added, pivots, trials, c, x, pivot, (pt, t), k);
      } else {
        LayoutRobotAdded(before, added, pivots, trials, c, pivot, pt, t, pos);
      }
    }
  }

  /** The robot placed at its first fit near the pivot is at its first fit in the extended layout. */
  lemma LayoutRobotAdded(before: seq<Placed>, added: seq<Placed>, pivots: seq<nat>, trials: seq<(nat, nat)>,
                         c: SFContext, pivot: nat, pt: nat, t: nat, pos: Vec3)
    requires added != [] && |pivots| == |added| - 1 && |trials| == |added| - 1
    requires forall i :: 0 <= i < |pivots| ==> pivots[i] <= i
    requires FirstFitNear(EntriesOf(added, pivots), Arena(before, added, c.start, |added|), |added|, c, pivot, pt, t, pos)
    ensures RobotFits(before, added + [Placed(RobotId(c.start + |added|), pos)], pivots + [pivot], trials + [(pt, t)],
                      c, |added|)
  {
    var x := Placed(RobotId(c.start + |added|), pos);
    SnocLast(added, x);
    SnocLast(pivots, pivot);
    SnocLast(trials, (pt, t));
    ArenaOfPrefix(before, added, [x], c.start, |added|);
  }

  /** Appending an element keeps the sequence as the prefix before it. */
  lemma SnocLast<T>(s: seq<T>, x: T)
    ensures (s + [x])[..|s|] == s && (s + [x])[|s|] == x && |s + [x]| - 1 == |s|
  {
  }

  /** Robot k of a layout keeps its first fit when another robot follows. */
  lemma LayoutRobotKept(before: seq<Placed>, added: seq<Placed>, pivots: seq<nat>, trials: seq<(nat, nat)>,
                        c: SFContext, x: Placed, pivot: nat, trial: (nat, nat), k: nat)
    requires ScaleFreeLayout(before, added, pivots, trials, c) && 1 <= k < |added| && pivot <= |pivots|
    ensures RobotFits(before, added + [x], pivots + [pivot], trials + [trial], c, k)
  {
    assert RobotFits(before, added, pivots, trials, c, k);
    SnocKeeps(added, x, k);
    SnocKeeps(pivots, pivot, k - 1);
    SnocKeeps(trials, trial, k - 1);
    ArenaOfPrefix(before, added, [x], c.start, k);
  }

  /** Appending an element keeps the prefixes and the elements before it. */
  lemma SnocKeeps<T>(s: seq<T>, x: T, k: nat)
    requires k < |s|
    ensures (s + [x])[..k] == s[..k] && (s + [x])[k] == s[k]
  {
  }

  /** Connects a robot at `pos` to its pivot: the pivot gains a connection and the robot joins the list with one. */
  method Connect(data: SFData, pivot: nat, pos: Vec3)
    requires data.Balanced() && pivot < |data.entries|
    modifies data
    ensures data.Balanced() && data.entries == Connected(old(data.entries), pivot, pos)
  {
    ghost var e := data.entries;
    data.IncrementConns(pivot);
    data.Insert(pos);
    ConnectedConns(e, pivot, pos);
    assert data.entries == Connected(e, pivot, pos);
  }

  /**
   * Places the next robot of a scale-free layout: it is added at the
   * origin, moved to the first fit near a pivot if some trial fits, and
   * then connected to that pivot. When no trial fits, the robot stays at
   * the origin and every pivot trial has failed.
   */
  method Attach(data: SFData, before: seq<Placed>, added: seq<Placed>, ghost pivots: seq<nat>,
                ghost trials: seq<(nat, nat)>, c: SFContext)
    returns (done: bool, next: seq<Placed>, pivot: nat, pt: nat, t: nat)
    requires data.Balanced() && ScaleFreeLayout(before, added, pivots, trials, c)
    requires data.entries == EntriesOf(added, pivots)
    modifies data
    ensures done ==> (data.Balanced() && ScaleFreeLayout(before, next, pivots + [pivot], trials + [(pt, t)], c)
                      && data.entries == EntriesOf(next, pivots + [pivot])
                      && |next| == |added| + 1 && next[..|added|] == added)
    ensures !done ==> (next == added + [Placed(RobotId(c.start + |added|), Zero3)] && data.entries == old(data.entries)
                       && AllPivotTrialsFail(data.entries, before + next, |added|, c))
  {
    var i := |added|;
    var arena := before + added + [Placed(RobotId(c.start + i), Zero3)];
    assert arena == Arena(before, added, c.start, i) by { assert added[..i] == added; }
    pivot, pt, t, done := PivotTrials(data, arena, i, c);
    if !done {
      next := added + [Placed(RobotId(c.start + i), Zero3)];
      assert before + next == arena;
      return;
    }
    var pos := Candidate(data.entries, pivot, i, pt, t, c);
    next := added + [Placed(RobotId(c.start + i), pos)];
    LayoutConnected(before, added, next, pivots, trials, c, pivot, pt, t, pos);
    Connect(data, pivot, pos);
    SnocLast(added, next[i]);
  }

  /* Distributions */

  /** What a distribution numbered from `start` needs of the draws: a cluster its square, a scale-free layout its offsets. */
  ghost predicate DrawsFit(d: Distribution, start: nat, root: real -> real, clusterDraw: (nat, nat) -> Vec2,
                     offsetDraw: (nat, nat, nat) -> Vec2) {
    (d.kind == "cluster" ==> ClusterDrawsFit(d.robots, d.parameter, start, root, clusterDraw))
    && (d.kind == "scalefree" ==>
         forall k, pt, t :: 1 <= k < d.robots ==> WithinSquare(Draw3(offsetDraw, start, k, pt, t), d.parameter * 0.5))
  }

  /** Where the first robot of a scale-free layout ends up: at the centre when it fits there, else at the origin. */
  function FirstPosition(before: seq<Placed>, center: Vec2, start: nat, free: (seq<Placed>, Vec3) -> bool): Vec3 {
    var centerPos := Vec3(center.x, center.y, 0.0);
    if free(before + [Placed(RobotId(start), Zero3)], centerPos) then centerPos else Zero3
  }

  /**
   * The robots of distribution d, numbered from `start`, were added after
   * `before` where its kind puts them: along the line, at first fits among
   * the cluster's candidates, or as a scale-free layout whose first robot is
   * at its first position.
   */
  ghost predicate Distributed(d: Distribution, before: seq<Placed>, added: seq<Placed>, start: nat,
                        free: (seq<Placed>, Vec3) -> bool, clusterDraw: (nat, nat) -> Vec2,
                        pivotDraw: (nat, nat) -> nat, offsetDraw: (nat, nat, nat) -> Vec2) {
    |added| == d.robots && IdsFrom(added, start)
    && (d.kind == "line" ==> forall k :: 0 <= k < |added| ==> added[k].position == LinePosition(d.center, k))
    && (d.kind == "cluster" ==>
         forall k :: 0 <= k < |added| ==> ClusterFirstFit(before, added, k, d.center, clusterDraw, start, free))
    && (d.kind == "scalefree" && added != [] ==>
         added[0].position == FirstPosition(before, d.center, start, free)
         && SomeScaleFreeLayout(before, added, SFContext(start, d.parameter * 0.5, free, pivotDraw, offsetDraw)))
  }

  /** The distributions were placed one after another, numbered from 0. */
  ghost predicate AllDistributed(dists: seq<Distribution>, before: seq<Placed>, added: seq<Placed>,
                           free: (seq<Placed>, Vec3) -> bool, clusterDraw: (nat, nat) -> Vec2,
                           pivotDraw: (nat, nat) -> nat, offsetDraw: (nat, nat, nat) -> Vec2)
    decreases |dists|
  {
    if dists == [] then added == []
    else
      dists[|dists| - 1].robots <= |added|
      && AllDistributed(dists[..|dists| - 1], before, added[..|added| - dists[|dists| - 1].robots],
                        free, clusterDraw, pivotDraw, offsetDraw)
      && Distributed(dists[|dists| - 1], before + added[..|added| - dists[|dists| - 1].robots],
                     added[|added| - dists[|dists| - 1].robots..], Total(dists[..|dists| - 1]),
                     free, clusterDraw, pivotDraw, offsetDraw)
  }

  lemma AllDistributedSnoc(dists: seq<Distribution>, d: Distribution, before: seq<Placed>, added: seq<Placed>,
                           more: seq<Placed>, free: (seq<Placed>, Vec3) -> bool, clusterDraw: (nat, nat) -> Vec2,
                           pivotDraw: (nat, nat) -> nat, offsetDraw: (nat, nat, nat) -> Vec2)
    requires AllDistributed(dists, before, added, free, clusterDraw, pivotDraw, offsetDraw)
    requires Distributed(d, before + added, more, Total(dists), free, clusterDraw, pivotDraw, offsetDraw)
    ensures AllDistributed(dists + [d], before, added + more, free, clusterDraw, pivotDraw, offsetDraw)
  {
    var all := dists + [d];
    assert all[..|all| - 1] == dists;
    assert (added + more)[..|added|] == added && (added + more)[|added|..] == more;
  }

  /**
   * A scale-free layout of n robots appended to `before` in full: the first
   * at its first position, the others at their first fits, each within
   * reach of its pivot.
   */
  ghost predicate LayoutDone(before: seq<Placed>, placed: seq<Placed>, center: Vec2, n: nat, c: SFContext,
                             pivots: seq<nat>, trials: seq<(nat, nat)>)
  {
    |placed| == |before| + n && n >= 1
    && placed[|before|].position == FirstPosition(before, center, c.start, c.free)
    && ScaleFreeLayout(before, placed[|before|..], pivots, trials, c)
    && NearPivots(placed[|before|..], pivots, c.h)
  }

  /**
   * A scale-free layout of n robots stopped at robot k, the last one in the
   * arena: the robots before it form a layout, and it stays at the origin
   * because every pivot trial failed.
   */
  ghost predicate LayoutStuck(before: seq<Placed>, placed: seq<Placed>, center: Vec2, n: nat, c: SFContext,
                              pivots: seq<nat>, trials: seq<(nat, nat)>) {
    |before| + 2 <= |placed| <= |before| + n
    && AppendedFrom(before, placed, |placed| - |before|, c.start) && placed[|placed| - 1].position == Zero3
    && placed[|before|].position == FirstPosition(before, center, c.start, c.free)
    && ScaleFreeLayout(before, placed[|before|..|placed| - 1], pivots, trials, c)
    && AllPivotTrialsFail(EntriesOf(placed[|before|..|placed| - 1], pivots), placed, |placed| - |before| - 1, c)
  }

  lemma LayoutStuckAt(before: seq<Placed>, added: seq<Placed>, next: seq<Placed>, center: Vec2, n: nat, c: SFContext,
                      pivots: seq<nat>, trials: seq<(nat, nat)>)
    requires ScaleFreeLayout(before, added, pivots, trials, c) && |added| < n
    requires added[0].position == FirstPosition(before, center, c.start, c.free)
    requires next == added + [Placed(RobotId(c.start + |added|), Zero3)]
    requires AllPivotTrialsFail(EntriesOf(added, pivots), before + next, |added|, c)
    ensures LayoutStuck(before, before + next, center, n, c, pivots, trials)
  {
    var p := before + next;
    AppendSnoc(before, added, next[|added|]);
    assert IdsFrom(p[|before|..], c.start);
    StuckOf(before, added, p, center, n, c, pivots, trials);
  }

  /** The arena `placed` holding a layout and then a robot at the origin, whose pivot trials all failed, is stuck. */
  lemma StuckOf(before: seq<Placed>, added: seq<Placed>, placed: seq<Placed>, center: Vec2, n: nat, c: SFContext,
                pivots: seq<nat>, trials: seq<(nat, nat)>)
    requires ScaleFreeLayout(before, added, pivots, trials, c) && |added| < n
    requires added[0].position == FirstPosition(before, center, c.start, c.free)
    requires |placed| == |before| + |added| + 1 && placed[..|before|] == before
    requires placed[|before|..|placed| - 1] == added && placed[|placed| - 1].position == Zero3
    requires IdsFrom(placed[|before|..], c.start)
    requires AllPivotTrialsFail(EntriesOf(added, pivots), placed, |added|, c)
    ensures LayoutStuck(before, placed, center, n, c, pivots, trials)
  {
    assert placed[|before|] == added[0];
  }

  /** A complete scale-free layout appended to the arena, with every robot within reach of its pivot. */
  lemma ScaleFreePlaced(before: seq<Placed>, added: seq<Placed>, center: Vec2, n: nat, pivots: seq<nat>,
                        trials: seq<(nat, nat)>, c: SFContext)
    requires ScaleFreeLayout(before, added, pivots, trials, c) && |added| == n && OffsetDrawsFit(n, c)
    requires added[0].position == FirstPosition(before, center, c.start, c.free)
    ensures AppendedFrom(before, before + added, |added|, c.start)
    ensures LayoutDone(before, before + added, center, n, c, pivots, trials)
  {
    AppendParts(before, added);
    LayoutWithinReach(before, added, pivots, trials, c);
  }

  /** The parts of a sequence extended by a run. */
  lemma AppendParts<T>(s: seq<T>, run: seq<T>)
    ensures (s + run)[|s|..] == run && (s + run)[..|s|] == s && |s + run| == |s| + |run|
  {
  }

  /** The parts of a sequence extended by a run and one more element. */
  lemma AppendSnoc<T>(s: seq<T>, run: seq<T>, x: T)
    ensures var p := s + (run + [x]);
      p[|s|..|p| - 1] == run && p[..|s|] == s && p[|s|..] == run + [x] && p[|p| - 1] == x
  {
  }

  /**
   * Attaches robots after the first one to a scale-free layout until it
   * has n robots or one of them fits nowhere; that one is then the last
   * robot, at the origin.
   */
  method GrowLayout(data: SFData, before: seq<Placed>, first: Placed, center: Vec2, n: nat, c: SFContext)
    returns (done: bool, added: seq<Placed>, ghost pivots: seq<nat>, ghost trials: seq<(nat, nat)>)
    requires n >= 1 && first.id == RobotId(c.start) && first.position == FirstPosition(before, center, c.start, c.free)
    requires data.Balanced() && data.entries == [Entry(1, first.position)]
    modifies data
    ensures done ==> |added| == n && added[0] == first && ScaleFreeLayout(before, added, pivots, trials, c)
    ensures !done ==> 2 <= |added| && LayoutStuck(before, before + added, center, n, c, pivots, trials)
  {
    added, pivots, trials := [first], [], [];
    var i := 1;
    while i < n
      invariant 1 <= i <= n && |added| == i && added[0] == first
      invariant data.Balanced() && ScaleFreeLayout(before, added, pivots, trials, c)
      invariant data.entries == EntriesOf(added, pivots)
    {
      var placedNext, next, pivot, pt, t := Attach(data, before, added, pivots, trials, c);
      if !placedNext {
        LayoutStuckAt(before, added, next, center, n, c, pivots, trials);
        return false, next, pivots, trials;
      }
      added := next;
      pivots, trials := pivots + [pivot], trials + [(pt, t)];
      i := i + 1;
    }
    done := true;
  }

  /** Placing distribution d after the ones before it extends their placement by one. */
  lemma DistributedNext(dists: seq<Distribution>, d: nat, base: seq<Placed>, before: seq<Placed>, after: seq<Placed>,
                        free: (seq<Placed>, Vec3) -> bool, clusterDraw: (nat, nat) -> Vec2,
                        pivotDraw: (nat, nat) -> nat, offsetDraw: (nat, nat, nat) -> Vec2)
    requires d < |dists| && |base| <= |before| <= |after| && before[..|base|] == base && after[..|before|] == before
    requires AllDistributed(dists[..d], base, before[|base|..], free, clusterDraw, pivotDraw, offsetDraw)
    requires Distributed(dists[d], before, after[|before|..], Total(dists[..d]), free, clusterDraw, pivotDraw, offsetDraw)
    ensures AllDistributed(dists[..d + 1], base, after[|base|..], free, clusterDraw, pivotDraw, offsetDraw)
  {
    PrefixSnoc(dists, d);
    var added, more := before[|base|..], after[|before|..];
    DropsJoin(base, before, after);
    AllDistributedSnoc(dists[..d], dists[d], base, added, more, free, clusterDraw, pivotDraw, offsetDraw);
  }

  lemma PrefixSnoc<T>(s: seq<T>, d: nat)
    requires d < |s|
    ensures s[..d] + [s[d]] == s[..d + 1] && s[..d + 1][..d] == s[..d]
  {
  }

  lemma DropsJoin(base: seq<Placed>, before: seq<Placed>, after: seq<Placed>)
    requires |base| <= |before| <= |after| && before[..|base|] == base && after[..|before|] == before
    ensures base + before[|base|..] == before && before + after[|before|..] == after
    ensures before[|base|..] + after[|before|..] == after[|base|..]
  {
    assert before + after[|before|..] == after[..|before|] + after[|before|..];
  }

  /* The loop functions */

  class CustomDistributionsLoopFunctions {
    /** The foot-bots added to the arena, in the order they were added. */
    var placed: seq<Placed>

    constructor()
      ensures placed == []
    {
      placed := [];
    }

    /**
     * Places the distributions one after another, each numbering its robots
     * from the running count of the robots before it. An unknown kind, or a
     * robot that cannot be placed, stops initialisation with an error.
     * `root` is the square root, and the draws are indexed by a robot's
     * running number.
     */
    method Init(dists: seq<Distribution>, root: real -> real, free: (seq<Placed>, Vec3) -> bool,
                clusterDraw: (nat, nat) -> Vec2, pivotDraw: (nat, nat) -> nat, offsetDraw: (nat, nat, nat) -> Vec2)
      returns (r: Result<()>)
      requires forall d {:trigger DrawsFit(dists[d], Total(dists[..d]), root, clusterDraw, offsetDraw)} :: 0 <= d < |dists|
                 ==> DrawsFit(dists[d], Total(dists[..d]), root, clusterDraw, offsetDraw)
      modifies this
      ensures r.Ok? ==> AllKnown(dists) && AppendedFrom(old(placed), placed, Total(dists), 0)
      ensures r.Ok? ==> AllDistributed(dists, old(placed), placed[|old(placed)|..], free, clusterDraw, pivotDraw, offsetDraw)
      ensures !AllKnown(dists) ==> r.Fail?
    {
      var count := 0;
      var d := 0;
      while d < |dists|
        invariant 0 <= d <= |dists|
        invariant count == Total(dists[..d])
        invariant AllKnown(dists[..d])
        invariant AppendedFrom(old(placed), placed, count, 0)
        invariant AllDistributed(dists[..d], old(placed), placed[|old(placed)|..], free, clusterDraw, pivotDraw, offsetDraw)
      {
        PrefixSnoc(dists, d);
        KnownPrefix(dists, d);
        assert DrawsFit(dists[d], Total(dists[..d]), root, clusterDraw, offsetDraw);
        r := PlaceNext(dists, d, count, old(placed), root, free, clusterDraw, pivotDraw, offsetDraw);
        if r.Fail? {
          return;
        }
        count := count + dists[d].robots;
        d := d + 1;
      }
      assert dists[..|dists|] == dists;
      r := Ok(());
    }

    /**
     * One step of Init: places distribution d after the ones before it,
     * numbering its robots from the count of theirs, or fails on an
     * unknown kind or a robot that cannot be placed.
     */
    method PlaceNext(dists: seq<Distribution>, d: nat, count: nat, ghost base: seq<Placed>, root: real -> real,
                     free: (seq<Placed>, Vec3) -> bool, clusterDraw: (nat, nat) -> Vec2,
                     pivotDraw: (nat, nat) -> nat, offsetDraw: (nat, nat, nat) -> Vec2)
      returns (r: Result<()>)
      requires d < |dists| && count == Total(dists[..d])
      requires DrawsFit(dists[d], count, root, clusterDraw, offsetDraw)
      requires AppendedFrom(base, placed, count, 0)
      requires AllDistributed(dists[..d], base, placed[|base|..], free, clusterDraw, pivotDraw, offsetDraw)
      modifies this
      ensures !KnownKind(dists[d].kind) ==> r.Fail?
      ensures r.Ok? ==> KnownKind(dists[d].kind) && AppendedFrom(base, placed, Total(dists[..d + 1]), 0)
      ensures r.Ok? ==> AllDistributed(dists[..d + 1], base, placed[|base|..], free, clusterDraw, pivotDraw, offsetDraw)
    {
      var dist := dists[d];
      if !KnownKind(dist.kind) {
        return Fail("Unknown topology \"" + dist.kind + "\"");
      }
      ghost var before := placed;
      r := PlaceDistribution(dist, count, root, free, clusterDraw, pivotDraw, offsetDraw);
      if r.Ok? {
        PrefixSnoc(dists, d);
        AppendedTwice(base, before, placed, count, dist.robots, 0);
        DistributedNext(dists, d, base, before, placed, free, clusterDraw, pivotDraw, offsetDraw);
      }
    }

    /** Places the robots of one distribution of a known kind, numbered from `start`. */
    method PlaceDistribution(dist: Distribution, start: nat, root: real -> real, free: (seq<Placed>, Vec3) -> bool,
                             clusterDraw: (nat, nat) -> Vec2, pivotDraw: (nat, nat) -> nat,
                             offsetDraw: (nat, nat, nat) -> Vec2)
      returns (r: Result<()>)
      requires KnownKind(dist.kind) && DrawsFit(dist, start, root, clusterDraw, offsetDraw)
      modifies this
      ensures r.Ok? ==> AppendedFrom(old(placed), placed, dist.robots, start)
      ensures r.Ok? ==> Distributed(dist, old(placed), placed[|old(placed)|..], start, free, clusterDraw, pivotDraw, offsetDraw)
    {
      if dist.kind == "line" {
        PlaceLine(dist.center, dist.robots, dist.parameter, start);
        r := Ok(());
      } else if dist.kind == "cluster" {
        r := PlaceCluster(dist.center, dist.robots, dist.parameter, start, root, free, clusterDraw);
      } else {
        ghost var pivots, trials;
        r, pivots, trials := PlaceScaleFree(dist.center, dist.robots, dist.parameter, start, free, pivotDraw, offsetDraw);
      }
    }

    /** Adds n robots on a diagonal line from the centre. */
    method PlaceLine(center: Vec2, n: nat, distance: real, start: nat)
      modifies this
      ensures AppendedFrom(old(placed), placed, n, start)
      ensures forall k :: 0 <= k < n ==> placed[|old(placed)| + k].position == LinePosition(center, k)
    {
      var i := 0;
      while i < n
        invariant 0 <= i <= n
        invariant AppendedFrom(old(placed), placed, i, start)
        invariant forall k :: 0 <= k < i ==> placed[|old(placed)| + k].position == LinePosition(center, k)
      {
        placed := placed + [Placed(RobotId(i + start), LinePosition(center, i))];
        assert placed[|old(placed)|..][i] == placed[|old(placed)| + i];
        i := i + 1;
      }
    }

    /**
     * Adds n robots scattered on the square of half-side
     * sqrt(FootBotArea * n / density) / 2 around the centre. Each is first
     * added at the origin and then moved to the first of at most
     * MaxPlaceTrials + 1 random positions on the square where it fits; a
     * robot that fits nowhere is an error and stays at the origin.
     */
    method PlaceCluster(center: Vec2, n: nat, density: real, start: nat, root: real -> real,
                        free: (seq<Placed>, Vec3) -> bool, draw: (nat, nat) -> Vec2)
      returns (r: Result<()>)
      requires ClusterDrawsFit(n, density, start, root, draw)
      modifies this
      ensures r.Ok? ==> AppendedFrom(old(placed), placed, n, start)
      ensures r.Ok? ==> forall k :: 0 <= k < n ==>
        ClusterFirstFit(old(placed), placed[|old(placed)|..], k, center, draw, start, free)
        && InSquareAround(placed[|old(placed)| + k].position, center, HalfSide(root, n, density))
      ensures r.Fail? ==> ClusterStuckAt(old(placed), placed, r.message, center, n, draw, start, free)
    {
      ghost var before := placed;
      ghost var added: seq<Placed> := [];
      var i := 0;
      while i < n
        invariant 0 <= i <= n && |added| == i
        invariant placed == before + added && IdsFrom(added, start)
        invariant forall k :: 0 <= k < i ==> ClusterFirstFit(before, added, k, center, draw, start, free)
        invariant forall k :: 0 <= k < i ==> InSquareAround(added[k].position, center, HalfSide(root, n, density))
      {
        var id := RobotId(i + start);
        placed := placed + [Placed(id, Zero3)];
        var arena := placed;
        assert arena == Arena(before, added, start, i) by { assert added[..i] == added; }
        var fits := (t: nat) => free(arena, ClusterPosition(center, Draw2(draw, start, i, t)));
        var trials, done := TryPlacements(fits);
        assert forall t: nat :: fits(t) == ClusterFits(arena, center, draw, start, i, t, free);
        if !done {
          r := Fail("Can't place " + id);
          ClusterStuck(before, added, placed, r.message, center, n, draw, start, free);
          return;
        }
        var x := Placed(id, ClusterPosition(center, Draw2(draw, start, i, trials)));
        placed := placed[|placed| - 1 := x];
        ClusterPlaced(before, added, x, center, draw, start, free, trials);
        assert WithinSquare(Draw2(draw, start, i, trials), HalfSide(root, n, density));
        added := added + [x];
        i := i + 1;
      }
      assert placed[|before|..] == added;
      r := Ok(());
    }

    /**
     * Adds n robots in a scale-free layout. The first goes to the centre;
     * the outcome of that move is not checked, so a robot that does not fit
     * there stays at the origin. Each later robot picks a pivot among the
     * robots placed, at most MaxRobotTrials + 1 times, and for each pivot
     * tries at most MaxPlaceTrials + 1 positions within the pivot's reach; a
     * robot that fits nowhere is an error. The new robot and its pivot then
     * gain a connection each. `pivots` and `trials` record, for each robot
     * after the first, its pivot and the trials at which it fitted.
     */
    method PlaceScaleFree(center: Vec2, n: nat, range: real, start: nat, free: (seq<Placed>, Vec3) -> bool,
                          pivotDraw: (nat, nat) -> nat, offsetDraw: (nat, nat, nat) -> Vec2)
      returns (r: Result<()>, ghost pivots: seq<nat>, ghost trials: seq<(nat, nat)>)
      requires OffsetDrawsFit(n, SFContext(start, range * 0.5, free, pivotDraw, offsetDraw))
      modifies this
      ensures n == 0 ==> r.Ok? && placed == old(placed)
      ensures r.Ok? ==> AppendedFrom(old(placed), placed, n, start)
      ensures r.Ok? && n > 0 ==>
        LayoutDone(old(placed), placed, center, n, SFContext(start, range * 0.5, free, pivotDraw, offsetDraw), pivots, trials)
      ensures r.Fail? ==>
        LayoutStuck(old(placed), placed, center, n, SFContext(start, range * 0.5, free, pivotDraw, offsetDraw), pivots, trials)
        && CantPlace(r.message, start + |placed| - |old(placed)| - 1)
    {
      pivots, trials := [], [];
      if n == 0 {
        return Ok(()), pivots, trials;
      }
      var before := placed;
      var c := SFContext(start, range * 0.5, free, pivotDraw, offsetDraw);
      var data := new SFData();
      var centerPos := Vec3(center.x, center.y, 0.0);
      var first := if free(before + [Placed(RobotId(start), Zero3)], centerPos) then centerPos else Zero3;
      data.Insert(first);
      var done, added;
      done, added, pivots, trials := GrowLayout(data, before, Placed(RobotId(start), first), center, n, c);
      placed := before + added;
      if !done {
        var number: nat := start + |added| - 1;
        assert |placed| - |before| - 1 == |added| - 1;
        return Fail("Can't place " + RobotId(number)), pivots, trials;
      }
      ScaleFreePlaced(before, added, center, n, pivots, trials, c);
      r := Ok(());
    }
  }
}
