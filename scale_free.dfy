/**
 * The bookkeeping of the scale-free robot layout: a list of the robots
 * placed so far, each with its number of connections, from which a pivot
 * for the next robot is picked with probability growing with its
 * connections (preferential attachment), and the random offset of a new
 * robot from its pivot.
 */
module ScaleFree {
  import opened Wrappers
  import opened Geometry

  /**
   * A placed robot: its connections and its position. The position is
   * read once the robot has been moved to it, and placed robots are not
   * moved again, so a value stands for the reference kept by the source.
   */
  datatype Entry = Entry(conns: nat, pos: Vec3)

  /** The sum of the connections of the entries. */
  function Conns(entries: seq<Entry>): nat
    decreases |entries|
  {
    if entries == [] then 0 else Conns(entries[..|entries| - 1]) + entries[|entries| - 1].conns
  }

  /**
   * Entry k takes the draws from the connections before it up to, not
   * including, the connections up to and including it; the last entry
   * also takes every draw beyond.
   */
  predicate Covers(entries: seq<Entry>, k: nat, x: nat)
    requires k < |entries|
  {
    Conns(entries[..k]) <= x && (x < Conns(entries[..k + 1]) || k == |entries| - 1)
  }

  lemma ConnsStep(entries: seq<Entry>, k: nat)
    requires k < |entries|
    ensures Conns(entries[..k + 1]) == Conns(entries[..k]) + entries[k].conns
  {
    assert entries[..k + 1][..k] == entries[..k];
  }

  /** Prefix sums of connections only grow. */
  lemma {:induction false} ConnsMonotone(entries: seq<Entry>, i: nat, j: nat)
    requires i <= j <= |entries|
    ensures Conns(entries[..i]) <= Conns(entries[..j])
    decreases j - i
  {
    if i < j {
      ConnsStep(entries, j - 1);
      ConnsMonotone(entries, i, j - 1);
    }
  }

  /** Every draw is taken by at most one entry, so the pick is a function of the draw. */
  lemma CoversUnique(entries: seq<Entry>, k: nat, j: nat, x: nat)
    requires k < |entries| && j < |entries|
    requires Covers(entries, k, x) && Covers(entries, j, x)
    ensures k == j
  {
    if k < j {
      ConnsMonotone(entries, k + 1, j);
    } else if j < k {
      ConnsMonotone(entries, j + 1, k);
    }
  }

  /** The list after connecting a new robot at `pos` to pivot k: the pivot gains one connection, the new robot has one. */
  function Connected(entries: seq<Entry>, k: nat, pos: Vec3): seq<Entry>
    requires k < |entries|
  {
    entries[k := entries[k].(conns := entries[k].conns + 1)] + [Entry(1, pos)]
  }

  /** Connecting adds two connections in all, matching the two that insertion adds to the total. */
  lemma {:induction false} ConnectedConns(entries: seq<Entry>, k: nat, pos: Vec3)
    requires k < |entries|
    ensures Conns(Connected(entries, k, pos)) == Conns(entries) + 2
    decreases |entries|
  {
    var c := Connected(entries, k, pos);
    assert c[..|c| - 1] == entries[k := entries[k].(conns := entries[k].conns + 1)];
    BumpConns(entries, k);
  }

  lemma {:induction false} BumpConns(entries: seq<Entry>, k: nat)
    requires k < |entries|
    ensures Conns(entries[k := entries[k].(conns := entries[k].conns + 1)]) == Conns(entries) + 1
    decreases |entries|
  {
    var b := entries[k := entries[k].(conns := entries[k].conns + 1)];
    var n := |entries|;
    if k < n - 1 {
      assert b[..n - 1] == entries[..n - 1][k := entries[k].(conns := entries[k].conns + 1)];
      BumpConns(entries[..n - 1], k);
    } else {
      assert b[..n - 1] == entries[..n - 1];
    }
  }

  /** The pivot list of the scale-free layout. */
  class SFData {
    var entries: seq<Entry>
    var totConns: nat

    /** The total is one more than the sum of the connections, once anything is stored. */
    predicate Balanced()
      reads this
    {
      (entries == [] && totConns == 0) || (entries != [] && totConns == Conns(entries) + 1)
    }

    constructor()
      ensures entries == [] && totConns == 0 && Balanced()
    {
      entries := [];
      totConns := 0;
    }

    /** Stores a robot with one connection; two connections are added to the total (robot and pivot). */
    method Insert(pos: Vec3)
      modifies this
      ensures entries == old(entries) + [Entry(1, pos)]
      ensures totConns == old(totConns) + 2
    {
      totConns := totConns + 2;
      entries := entries + [Entry(1, pos)];
    }

    /** The pivot gains a connection; the total is not touched. */
    method IncrementConns(k: nat)
      requires k < |entries|
      modifies this`entries
      ensures entries == old(entries)[k := old(entries)[k].(conns := old(entries)[k].conns + 1)]
    {
      entries := entries[k := entries[k].(conns := entries[k].conns + 1)];
    }

    /**
     * Picks a pivot. With more than one entry, `draw` is the uniform draw in
     * [0, total) and the entries are walked until the running sum of
     * connections passes it. An empty list is an error, and the sole entry
     * of a one-entry list is returned without a draw.
     */
    method Pick(draw: nat) returns (r: Result<nat>)
      ensures r.Fail? <==> entries == []
      ensures r.Ok? ==> r.value < |entries|
      ensures |entries| == 1 ==> r == Ok(0)
      ensures |entries| > 1 ==> r.Ok? && Covers(entries, r.value, draw)
    {
      if |entries| > 1 {
        var sum := 0;
        var k := 0;
        while k < |entries| && sum <= draw
          invariant 0 <= k <= |entries|
          invariant sum == Conns(entries[..k])
          invariant k > 0 ==> Conns(entries[..k - 1]) <= draw
        {
          ConnsStep(entries, k);
          sum := sum + entries[k].conns;
          k := k + 1;
        }
        if k < |entries| {
          r := Ok(k - 1);
        } else {
          r := Ok(|entries| - 1);
        }
      } else if |entries| == 1 {
        r := Ok(0);
      } else {
        r := Fail("SFData::Pick(): empty structure");
      }
    }
  }

  /**
   * One coordinate of a new robot's offset from its pivot: a uniform draw
   * `v` in [-h, h] pushed away from 0 by h.
   */
  function GenerateCoordinate(v: real, h: real): (r: real)
    ensures h >= 0.0 ==> (r >= h || r <= -h)
    ensures -h <= v <= h ==> -2.0 * h <= r <= 2.0 * h
    ensures v > 0.0 ==> r > h
  {
    if v > 0.0 then v + h else v - h
  }
}
