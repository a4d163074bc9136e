/**
 * The two heading contributions the flocking controllers compute from
 * their sensors. The light vector adds up the light readings and, unless
 * they cancel out, rescales the sum to a fixed length. The flocking vector
 * averages the contributions of the neighbours that qualify and clamps the
 * average to a maximum length. The foot-bot and the eye-bot controllers
 * carry their own copies of this logic, differing only in which neighbours
 * qualify and in the lengths; it is stated once here.
 *
 * A reading given as a magnitude and an angle becomes a vector through the
 * function `polar`, and the Lennard-Jones magnitude of a neighbour is a
 * function of its distance supplied by the caller: both involve
 * trigonometry and powers that are not modelled.
 */
module Interaction {
  import opened Geometry

  /** A light reading: its intensity and the angle it comes from. */
  datatype PolarReading = PolarReading(value: real, angle: real)

  /** The sum of the readings, each turned into a vector by `polar`. */
  function PolarSum(readings: seq<PolarReading>, polar: (real, real) -> Vec2): Vec2
  {
    if |readings| == 0 then Zero2
    else
      var last := readings[|readings| - 1];
      Add2(PolarSum(readings[..|readings| - 1], polar), polar(last.value, last.angle))
  }

  /**
   * The light vector made from the sum of the readings: a sum of non-zero
   * length is rescaled, keeping its direction, to length `length`; a sum of
   * length zero is returned as it is.
   */
  function TowardLight(sum: Vec2, length: real, len: Vec2 -> real): (r: Vec2)
    requires IsLength(len)
    ensures len(sum) > 0.0 ==> r == Scale2(length / len(sum), sum) && SqLen2(r) == length * length
    ensures len(sum) == 0.0 ==> r == sum && SqLen2(r) == 0.0
  {
    var l := len(sum);
    if l > 0.0 then
      ScaleSqLen2(length / l, sum);
      assert (length / l) * (length / l) * (l * l) == length * length;
      Scale2(length / l, sum)
    else
      assert l == 0.0 && l * l == SqLen2(sum);
      sum
  }

  /** The light vector loop: sums the readings and rescales the sum. */
  method VectorToLight(readings: seq<PolarReading>, length: real,
                       polar: (real, real) -> Vec2, len: Vec2 -> real) returns (r: Vec2)
    requires IsLength(len)
    ensures r == TowardLight(PolarSum(readings, polar), length, len)
  {
    var accum := Zero2;
    var i := 0;
    while i < |readings|
      invariant 0 <= i <= |readings|
      invariant accum == PolarSum(readings[..i], polar)
    {
      assert readings[..i + 1][..i] == readings[..i];
      accum := Add2(accum, polar(readings[i].value, readings[i].angle));
      i := i + 1;
    }
    assert readings[..|readings|] == readings;
    if len(accum) > 0.0 {
      accum := Scale2(length / len(accum), accum);
    }
    r := accum;
  }

  /**
   * The sum of the contributions of the neighbours that qualify, and how
   * many qualify. The count is zero exactly when no neighbour qualifies,
   * and then the sum is the zero vector.
   */
  function Qualifying<T>(items: seq<T>, qualifies: T -> bool, contribution: T -> Vec2): (r: (Vec2, nat))
    ensures r.1 <= |items|
    ensures r.1 == 0 <==> forall i :: 0 <= i < |items| ==> !qualifies(items[i])
    ensures r.1 == 0 ==> r.0 == Zero2
  {
    if |items| == 0 then (Zero2, 0)
    else
      var prev := Qualifying(items[..|items| - 1], qualifies, contribution);
      var last := items[|items| - 1];
      assert forall i :: 0 <= i < |items| - 1 ==> items[..|items| - 1][i] == items[i];
      if qualifies(last) then (Add2(prev.0, contribution(last)), prev.1 + 1)
      else prev
  }

  /**
   * The flocking vector: when some neighbour qualifies, the mean of their
   * contributions, rescaled to length |max| if it is longer than `max`;
   * otherwise the zero vector. Its length never exceeds |max|.
   */
  function MeanInteraction<T>(items: seq<T>, qualifies: T -> bool, contribution: T -> Vec2,
                              max: real, len: Vec2 -> real): (r: Vec2)
    requires IsLength(len)
    ensures SqLen2(r) <= max * max
    ensures (forall i :: 0 <= i < |items| ==> !qualifies(items[i])) ==> r == Zero2
  {
    var q := Qualifying(items, qualifies, contribution);
    if q.1 > 0 then
      var mean := Scale2(1.0 / q.1 as real, q.0);
      ClampLength2(mean, max, len)
    else
      ZeroWithin(max);
      Zero2
  }

  lemma ZeroWithin(max: real)
    ensures SqLen2(Zero2) <= max * max
  {
    assert 0.0 <= max * max;
  }

  /** When all qualifying neighbours contribute the same vector, their sum is that vector times their count. */
  lemma {:induction false} QualifyingEqualContributions<T>(items: seq<T>, qualifies: T -> bool,
                                                           contribution: T -> Vec2, c: Vec2)
    requires forall i :: 0 <= i < |items| && qualifies(items[i]) ==> contribution(items[i]) == c
    ensures var q := Qualifying(items, qualifies, contribution);
      q.0 == Scale2(q.1 as real, c)
  {
    if |items| > 0 {
      var init := items[..|items| - 1];
      var last := items[|items| - 1];
      assert forall i :: 0 <= i < |init| ==> init[i] == items[i];
      QualifyingEqualContributions(init, qualifies, contribution, c);
      var q := Qualifying(init, qualifies, contribution);
      if qualifies(last) {
        assert Qualifying(items, qualifies, contribution) == (Add2(q.0, c), q.1 + 1);
        ScaleSuccessor(q.1, c);
      } else {
        assert Qualifying(items, qualifies, contribution) == q;
      }
    } else {
      assert Scale2(0.0, c) == Zero2;
    }
  }

  /**
   * The mean of equal contributions is that contribution, when it is
   * within the maximum length.
   */
  lemma MeanOfEqualContributions<T>(items: seq<T>, qualifies: T -> bool, contribution: T -> Vec2,
                                    c: Vec2, max: real, len: Vec2 -> real)
    requires IsLength(len) && len(c) <= max
    requires forall i :: 0 <= i < |items| && qualifies(items[i]) ==> contribution(items[i]) == c
    requires exists i :: 0 <= i < |items| && qualifies(items[i])
    ensures MeanInteraction(items, qualifies, contribution, max, len) == c
  {
    QualifyingEqualContributions(items, qualifies, contribution, c);
    var q := Qualifying(items, qualifies, contribution);
    ScaleBack(q.1, c);
  }

  lemma ScaleSuccessor(n: nat, c: Vec2)
    ensures Add2(Scale2(n as real, c), c) == Scale2((n + 1) as real, c)
  {
    var a, b := n as real, (n + 1) as real;
    assert b * c.x == a * c.x + c.x;
    assert b * c.y == a * c.y + c.y;
  }

  lemma ScaleBack(n: nat, c: Vec2)
    requires n > 0
    ensures Scale2(1.0 / n as real, Scale2(n as real, c)) == c
  {
    var a := n as real;
    assert (1.0 / a) * (a * c.x) == c.x;
    assert (1.0 / a) * (a * c.y) == c.y;
  }

  /** The neighbours that qualify, in their order. */
  function Filter<T>(items: seq<T>, qualifies: T -> bool): (r: seq<T>)
    ensures |r| <= |items|
    ensures forall i :: 0 <= i < |r| ==> qualifies(r[i])
  {
    if |items| == 0 then []
    else
      var rest := Filter(items[..|items| - 1], qualifies);
      if qualifies(items[|items| - 1]) then rest + [items[|items| - 1]] else rest
  }

  /** Neighbours that do not qualify have no influence on the sum or the count. */
  lemma {:induction false} QualifyingIgnoresOthers<T>(items: seq<T>, qualifies: T -> bool,
                                                      contribution: T -> Vec2)
    ensures Qualifying(items, qualifies, contribution)
      == Qualifying(Filter(items, qualifies), qualifies, contribution)
  {
    if |items| > 0 {
      var init := items[..|items| - 1];
      var last := items[|items| - 1];
      QualifyingIgnoresOthers(init, qualifies, contribution);
      if qualifies(last) {
        var f := Filter(init, qualifies) + [last];
        assert f[..|f| - 1] == Filter(init, qualifies);
      }
    }
  }

  /** Hence the flocking vector only depends on the neighbours that qualify. */
  lemma MeanInteractionIgnoresOthers<T>(items: seq<T>, qualifies: T -> bool, contribution: T -> Vec2,
                                        max: real, len: Vec2 -> real)
    requires IsLength(len)
    ensures MeanInteraction(items, qualifies, contribution, max, len)
      == MeanInteraction(Filter(items, qualifies), qualifies, contribution, max, len)
  {
    QualifyingIgnoresOthers(items, qualifies, contribution);
  }

  /**
   * The flocking vector loop: no neighbours give the zero vector; otherwise
   * the contributions of the qualifying ones are added up and counted, and
   * their mean is clamped.
   */
  method FlockingVector<T>(items: seq<T>, qualifies: T -> bool, contribution: T -> Vec2,
                           max: real, len: Vec2 -> real) returns (r: Vec2)
    requires IsLength(len)
    ensures r == MeanInteraction(items, qualifies, contribution, max, len)
  {
    if |items| == 0 {
      return Zero2;
    }
    var accum := Zero2;
    var seen: nat := 0;
    var i := 0;
    while i < |items|
      invariant 0 <= i <= |items|
      invariant (accum, seen) == Qualifying(items[..i], qualifies, contribution)
    {
      assert items[..i + 1][..i] == items[..i];
      if qualifies(items[i]) {
        accum := Add2(accum, contribution(items[i]));
        seen := seen + 1;
      }
      i := i + 1;
    }
    assert items[..|items|] == items;
    if seen > 0 {
      accum := Scale2(1.0 / seen as real, accum);
      r := ClampLength2(accum, max, len);
    } else {
      r := Zero2;
    }
  }
}
