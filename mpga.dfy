/**
 * The multi-process genetic algorithm: a population of individuals, each
 * evaluated by a worker that reads its genome from a shared memory region
 * and writes back one aggregated score; 2-elitist selection, single-point
 * crossover and per-gene mutation produce the next generation.
 *
 * Random draws (allele values, cut points, mutation coin flips), the
 * scores the simulator produces and the status reports of the workers are
 * parameters of the operations.
 */
module Mpga {
  import opened MpgaLoop

  /** An individual: a parameter set and the score it obtained. */
  datatype Individual = Individual(genome: seq<real>, score: real)

  /** The two orderings the GA can sort with; it stores one of them. */
  datatype Comparator = SortHighToLow | SortLowToHigh

  /** What the master learns about a worker from waiting on it. */
  datatype WaitStatus = Stopped | Terminated

  /** The first n reports all say "stopped". */
  predicate AllStopped(reports: seq<WaitStatus>, n: nat) {
    |reports| >= n && forall k :: 0 <= k < n ==> reports[k] == Stopped
  }

  /** Evaluate either completes or the master process exits with a code. */
  datatype EvaluationOutcome = Evaluated | FatalExit(code: int)

  /** `Before(c, a, b)`: comparator `c` puts `a` strictly before `b`. */
  predicate Before(c: Comparator, a: Individual, b: Individual) {
    match c
    case SortHighToLow => a.score > b.score
    case SortLowToHigh => b.score > a.score
  }

  /** Maximising sorts best (highest) first, minimising lowest first. */
  function ComparatorFor(maximize: bool): Comparator {
    if maximize then SortHighToLow else SortLowToHigh
  }

  /** No individual would be put before one that precedes it. */
  predicate SortedBy(c: Comparator, p: seq<Individual>) {
    forall i, j :: 0 <= i < j < |p| ==> !Before(c, p[j], p[i])
  }

  /**
   * A population sorted with the comparator chosen for `maximize` has
   * non-increasing scores when maximising, non-decreasing when minimising.
   */
  lemma SortedMeansScoreOrder(maximize: bool, p: seq<Individual>)
    ensures SortedBy(ComparatorFor(maximize), p) <==>
      (forall i, j :: 0 <= i < j < |p| ==>
        if maximize then p[i].score >= p[j].score else p[i].score <= p[j].score)
  {
  }

  predicate WellFormed(p: seq<Individual>, genomeSize: nat) {
    forall i :: 0 <= i < |p| ==> |p[i].genome| == genomeSize
  }

  predicate InRange(g: seq<real>, lo: real, hi: real) {
    forall k :: 0 <= k < |g| ==> lo <= g[k] <= hi
  }

  /** Every gene of every individual lies in [lo, hi]. */
  predicate GenomesInRange(p: seq<Individual>, lo: real, hi: real) {
    forall i :: 0 <= i < |p| ==> InRange(p[i].genome, lo, hi)
  }

  /**
   * When `x` goes after the head of sorted `p`, nothing placed into the
   * rest of `p` goes before that head.
   */
  lemma HeadStaysFirst(c: Comparator, p: seq<Individual>, x: Individual, rest: seq<Individual>)
    requires p != [] && SortedBy(c, p) && Before(c, p[0], x)
    requires multiset(rest) == multiset(p[1..]) + multiset{x}
    ensures forall j :: 0 <= j < |rest| ==> !Before(c, rest[j], p[0])
  {
    forall j | 0 <= j < |rest| ensures !Before(c, rest[j], p[0]) {
      assert rest[j] in multiset(rest);
      if rest[j] != x {
        assert rest[j] in multiset(p[1..]);
        var k :| 0 <= k < |p[1..]| && p[1..][k] == rest[j];
        assert p[k + 1] == rest[j];
      }
    }
  }

  /** Places `x` into the sorted population `p`. */
  function InsertSorted(c: Comparator, x: Individual, p: seq<Individual>): (r: seq<Individual>)
    requires SortedBy(c, p)
    ensures SortedBy(c, r) && multiset(r) == multiset(p) + multiset{x}
  {
    if p == [] then [x]
    else if !Before(c, p[0], x) then [x] + p
    else
      var rest := InsertSorted(c, x, p[1..]);
      assert p == [p[0]] + p[1..];
      HeadStaysFirst(c, p, x, rest);
      [p[0]] + rest
  }

  /**
   * The population sorted with the comparator: sorted, and a permutation
   * of its input. The source delegates this to the standard library's
   * sort, which makes no stability promise; any sorted permutation meets
   * this contract.
   */
  function SortPopulation(c: Comparator, p: seq<Individual>): (r: seq<Individual>)
    ensures SortedBy(c, r) && multiset(r) == multiset(p)
  {
    if p == [] then []
    else
      assert p == p[..|p| - 1] + [p[|p| - 1]];
      InsertSorted(c, p[|p| - 1], SortPopulation(c, p[..|p| - 1]))
  }

  /** Reordering a population keeps its genes in range. */
  lemma PermutationInRange(p: seq<Individual>, q: seq<Individual>, lo: real, hi: real)
    requires multiset(p) == multiset(q) && GenomesInRange(p, lo, hi)
    ensures GenomesInRange(q, lo, hi)
  {
    forall i | 0 <= i < |q| ensures InRange(q[i].genome, lo, hi) {
      assert q[i] in multiset(q);
      var j :| 0 <= j < |p| && p[j] == q[i];
    }
  }

  /** Every genome of a permutation of a well-formed population has the same length. */
  lemma PermutationWellFormed(p: seq<Individual>, q: seq<Individual>, genomeSize: nat)
    requires multiset(p) == multiset(q) && WellFormed(p, genomeSize)
    ensures WellFormed(q, genomeSize)
  {
    forall i | 0 <= i < |q| ensures |q[i].genome| == genomeSize {
      assert q[i] in multiset(p);
    }
  }

  /** Population `p` with individual i given score `scores[i]`. */
  function Rescored(p: seq<Individual>, scores: seq<real>): (r: seq<Individual>)
    requires |scores| == |p|
    ensures |r| == |p|
    ensures forall i :: 0 <= i < |p| ==> r[i].genome == p[i].genome && r[i].score == scores[i]
  {
    seq(|p|, i requires 0 <= i < |p| => p[i].(score := scores[i]))
  }

  // ---------------------------------------------------------------------
  // Shared memory layout: popSize slots of genomeSize + 1 reals each, the
  // genome first and the score last.
  // ---------------------------------------------------------------------

  function SlotBase(genomeSize: nat, i: nat): nat { i * (genomeSize + 1) }

  function RegionSize(genomeSize: nat, popSize: nat): nat { popSize * (genomeSize + 1) }

  /** Slot i, genome and score included, lies inside the region. */
  lemma SlotInRegion(genomeSize: nat, popSize: nat, i: nat)
    requires i < popSize
    ensures SlotBase(genomeSize, i) + genomeSize < RegionSize(genomeSize, popSize)
  {
    assert (i + 1) * (genomeSize + 1) <= popSize * (genomeSize + 1) by {
      assert i + 1 <= popSize;
    }
  }

  /** A slot ends before any later slot begins. */
  lemma SlotsDisjoint(genomeSize: nat, i: nat, j: nat)
    requires i < j
    ensures SlotBase(genomeSize, i) + genomeSize < SlotBase(genomeSize, j)
  {
    assert (i + 1) * (genomeSize + 1) <= j * (genomeSize + 1) by {
      assert i + 1 <= j;
    }
  }

  function ReadGenome(m: seq<real>, genomeSize: nat, i: nat): seq<real>
    requires SlotBase(genomeSize, i) + genomeSize < |m|
  {
    m[SlotBase(genomeSize, i)..SlotBase(genomeSize, i) + genomeSize]
  }

  function ReadScore(m: seq<real>, genomeSize: nat, i: nat): real
    requires SlotBase(genomeSize, i) + genomeSize < |m|
  {
    m[SlotBase(genomeSize, i) + genomeSize]
  }

  function WriteGenome(m: seq<real>, genomeSize: nat, i: nat, g: seq<real>): seq<real>
    requires |g| == genomeSize && SlotBase(genomeSize, i) + genomeSize < |m|
  {
    m[..SlotBase(genomeSize, i)] + g + m[SlotBase(genomeSize, i) + genomeSize..]
  }

  function WriteScore(m: seq<real>, genomeSize: nat, i: nat, s: real): seq<real>
    requires SlotBase(genomeSize, i) + genomeSize < |m|
  {
    m[SlotBase(genomeSize, i) + genomeSize := s]
  }

  /**
   * Writing genome `g` into slot i: reading slot i gives `g` back; every
   * other genome and every score are as before.
   */
  lemma GenomeRoundTrip(m: seq<real>, genomeSize: nat, popSize: nat, i: nat, g: seq<real>)
    requires |m| == RegionSize(genomeSize, popSize) && i < popSize && |g| == genomeSize
    ensures SlotBase(genomeSize, i) + genomeSize < |m|
    ensures |WriteGenome(m, genomeSize, i, g)| == |m|
    ensures ReadGenome(WriteGenome(m, genomeSize, i, g), genomeSize, i) == g
    ensures forall j :: 0 <= j < popSize && j != i ==>
      SlotBase(genomeSize, j) + genomeSize < |m| &&
      ReadGenome(WriteGenome(m, genomeSize, i, g), genomeSize, j) == ReadGenome(m, genomeSize, j)
    ensures forall j :: 0 <= j < popSize ==>
      SlotBase(genomeSize, j) + genomeSize < |m| &&
      ReadScore(WriteGenome(m, genomeSize, i, g), genomeSize, j) == ReadScore(m, genomeSize, j)
  {
    SlotInRegion(genomeSize, popSize, i);
    var m' := WriteGenome(m, genomeSize, i, g);
    var b := SlotBase(genomeSize, i);
    assert forall t :: 0 <= t < |m| ==> m'[t] == if b <= t < b + genomeSize then g[t - b] else m[t];
    forall j | 0 <= j < popSize
      ensures SlotBase(genomeSize, j) + genomeSize < |m|
      ensures j != i ==> ReadGenome(m', genomeSize, j) == ReadGenome(m, genomeSize, j)
      ensures ReadScore(m', genomeSize, j) == ReadScore(m, genomeSize, j)
    {
      SlotInRegion(genomeSize, popSize, j);
      if j < i { SlotsDisjoint(genomeSize, j, i); }
      if i < j { SlotsDisjoint(genomeSize, i, j); }
    }
  }

  /**
   * Writing score `s` into slot i: reading the score of slot i gives `s`
   * back; every other score and every genome are as before.
   */
  lemma ScoreRoundTrip(m: seq<real>, genomeSize: nat, popSize: nat, i: nat, s: real)
    requires |m| == RegionSize(genomeSize, popSize) && i < popSize
    ensures SlotBase(genomeSize, i) + genomeSize < |m|
    ensures |WriteScore(m, genomeSize, i, s)| == |m|
    ensures ReadScore(WriteScore(m, genomeSize, i, s), genomeSize, i) == s
    ensures forall j :: 0 <= j < popSize && j != i ==>
      SlotBase(genomeSize, j) + genomeSize < |m| &&
      ReadScore(WriteScore(m, genomeSize, i, s), genomeSize, j) == ReadScore(m, genomeSize, j)
    ensures forall j :: 0 <= j < popSize ==>
      SlotBase(genomeSize, j) + genomeSize < |m| &&
      ReadGenome(WriteScore(m, genomeSize, i, s), genomeSize, j) == ReadGenome(m, genomeSize, j)
  {
    SlotInRegion(genomeSize, popSize, i);
    forall j | 0 <= j < popSize
      ensures SlotBase(genomeSize, j) + genomeSize < |m|
      ensures j != i ==> ReadScore(WriteScore(m, genomeSize, i, s), genomeSize, j) == ReadScore(m, genomeSize, j)
      ensures ReadGenome(WriteScore(m, genomeSize, i, s), genomeSize, j) == ReadGenome(m, genomeSize, j)
    {
      SlotInRegion(genomeSize, popSize, j);
      if j < i { SlotsDisjoint(genomeSize, j, i); }
      if i < j { SlotsDisjoint(genomeSize, i, j); }
    }
  }

  /** The region shared by the master and the workers. */
  class SharedMem {
    const genomeSize: nat
    const popSize: nat
    const mem: array<real>

    ghost predicate Valid()
      reads this
    {
      mem.Length == RegionSize(genomeSize, popSize)
    }

    constructor(genomeSize: nat, popSize: nat)
      ensures Valid() && fresh(mem)
      ensures this.genomeSize == genomeSize && this.popSize == popSize
    {
      this.genomeSize := genomeSize;
      this.popSize := popSize;
      mem := new real[RegionSize(genomeSize, popSize)];
    }

    /** The genome stored in slot i. */
    function GetGenome(i: nat): (g: seq<real>)
      reads this, mem
      requires Valid() && i < popSize
      ensures |g| == genomeSize
    {
      SlotInRegion(genomeSize, popSize, i);
      ReadGenome(mem[..], genomeSize, i)
    }

    /** The score stored in slot i. */
    function GetScore(i: nat): real
      reads this, mem
      requires Valid() && i < popSize
    {
      SlotInRegion(genomeSize, popSize, i);
      ReadScore(mem[..], genomeSize, i)
    }

    /** The scores of all slots, in slot order. */
    function Scores(): (s: seq<real>)
      reads this, mem
      requires Valid()
      ensures |s| == popSize && forall j :: 0 <= j < popSize ==> s[j] == GetScore(j)
    {
      seq(popSize, j requires 0 <= j < popSize reads this, mem => GetScore(j))
    }

    /** Copies the genome into slot i, one value at a time. */
    method SetGenome(i: nat, g: seq<real>)
      requires Valid() && i < popSize && |g| == genomeSize
      modifies mem
      ensures SlotBase(genomeSize, i) + genomeSize < mem.Length
      ensures mem[..] == WriteGenome(old(mem[..]), genomeSize, i, g)
    {
      SlotInRegion(genomeSize, popSize, i);
      var b := SlotBase(genomeSize, i);
      var k := 0;
      while k < genomeSize
        invariant 0 <= k <= genomeSize
        invariant forall t :: 0 <= t < mem.Length ==>
          mem[t] == if b <= t < b + k then g[t - b] else old(mem[t])
      {
        mem[b + k] := g[k];
        k := k + 1;
      }
      ghost var w := WriteGenome(old(mem[..]), genomeSize, i, g);
      assert forall t :: 0 <= t < mem.Length ==> mem[..][t] == w[t];
    }

    /** Stores the score of slot i. */
    method SetScore(i: nat, s: real)
      requires Valid() && i < popSize
      modifies mem
      ensures SlotBase(genomeSize, i) + genomeSize < mem.Length
      ensures mem[..] == WriteScore(old(mem[..]), genomeSize, i, s)
    {
      SlotInRegion(genomeSize, popSize, i);
      mem[SlotBase(genomeSize, i) + genomeSize] := s;
    }
  }

  // ---------------------------------------------------------------------
  // Genetic operators on genomes.
  // ---------------------------------------------------------------------

  /**
   * Single-point crossover: the genes of `first` before the cut and the
   * genes of `second` from the cut on.
   */
  function Offspring(first: seq<real>, second: seq<real>, cut: nat): (g: seq<real>)
    requires cut <= |first| && cut <= |second|
    ensures |g| == |second|
    ensures forall k :: 0 <= k < cut ==> g[k] == first[k]
    ensures forall k :: cut <= k < |g| ==> g[k] == second[k]
  {
    first[..cut] + second[cut..]
  }

  /** Gene k is replaced by `values[k]` exactly when `fires[k]`. */
  function MutateGenome(g: seq<real>, fires: seq<bool>, values: seq<real>): (r: seq<real>)
    requires |fires| == |g| && |values| == |g|
    ensures |r| == |g|
    ensures forall k :: 0 <= k < |g| ==> r[k] == (if fires[k] then values[k] else g[k])
  {
    seq(|g|, k requires 0 <= k < |g| => if fires[k] then values[k] else g[k])
  }

  /** Mutation keeps every gene inside the allele range. */
  lemma MutationInRange(g: seq<real>, fires: seq<bool>, values: seq<real>, lo: real, hi: real)
    requires |fires| == |g| && |values| == |g|
    requires InRange(g, lo, hi) && InRange(values, lo, hi)
    ensures InRange(MutateGenome(g, fires, values), lo, hi)
  {
  }

  /** A child of two parents in the allele range, mutated with values in the range, is in the range. */
  lemma ChildInRange(first: seq<real>, second: seq<real>, cut: nat, fires: seq<bool>, values: seq<real>,
                     lo: real, hi: real)
    requires cut <= |first| && cut <= |second| && |fires| == |second| && |values| == |second|
    requires InRange(first, lo, hi) && InRange(second, lo, hi) && InRange(values, lo, hi)
    ensures InRange(MutateGenome(Offspring(first, second, cut), fires, values), lo, hi)
  {
    var child := Offspring(first, second, cut);
    assert InRange(child, lo, hi) by {
      forall k | 0 <= k < |child| ensures lo <= child[k] <= hi {
        if k < cut { assert child[k] == first[k]; } else { assert child[k] == second[k]; }
      }
    }
    MutationInRange(child, fires, values, lo, hi);
  }

  /** Children of two parents of `size` genes, cut inside the genome, have `size` genes too. */
  lemma ChildrenWellFormed(parents: seq<Individual>, pop: seq<Individual>, cuts: seq<nat>, size: nat)
    requires |parents| == 2 && |pop| == 2 + |cuts| && pop[..2] == parents && WellFormed(parents, size)
    requires forall k :: 0 <= k < |cuts| ==> 1 <= cuts[k] <= size - 1
    requires forall k :: 0 <= k < |cuts| ==>
      pop[2 + k].genome == Offspring(parents[0].genome, parents[1].genome, cuts[k])
    ensures WellFormed(pop, size)
  {
    forall j | 0 <= j < |pop| ensures |pop[j].genome| == size {
      if j < 2 {
        assert pop[j] == parents[j];
      } else {
        assert pop[2 + (j - 2)].genome == Offspring(parents[0].genome, parents[1].genome, cuts[j - 2]);
      }
    }
  }

  /**
   * A new generation, the two parents followed by their mutated children,
   * keeps every gene in the allele range.
   */
  lemma NextPopulationInRange(parents: seq<Individual>, pop: seq<Individual>, cuts: seq<nat>,
                              fires: seq<seq<bool>>, values: seq<seq<real>>, prob: real, lo: real, hi: real)
    requires |parents| == 2 && |pop| >= 2 && pop[..2] == parents
    requires GenomesInRange(parents, lo, hi) && WellFormed(pop, |parents[1].genome|)
    requires GenerationDraws(|pop|, |parents[1].genome|, prob, lo, hi, cuts, fires, values)
    requires |parents[0].genome| == |parents[1].genome|
    requires forall k :: 0 <= k < |pop| - 2 ==>
      pop[k + 2].genome == MutateGenome(Offspring(parents[0].genome, parents[1].genome, cuts[k]), fires[k], values[k])
    ensures GenomesInRange(pop, lo, hi)
  {
    forall j | 0 <= j < |pop| ensures InRange(pop[j].genome, lo, hi) {
      if j < 2 {
        assert pop[j] == parents[j];
      } else {
        assert pop[(j - 2) + 2].genome == MutateGenome(
          Offspring(parents[0].genome, parents[1].genome, cuts[j - 2]), fires[j - 2], values[j - 2]);
        ChildInRange(parents[0].genome, parents[1].genome, cuts[j - 2], fires[j - 2], values[j - 2], lo, hi);
      }
    }
  }

  /** When no coin flip fires, mutation changes nothing. */
  lemma MutationWithoutFiring(g: seq<real>, fires: seq<bool>, values: seq<real>)
    requires |fires| == |g| && |values| == |g|
    requires forall k :: 0 <= k < |g| ==> !fires[k]
    ensures MutateGenome(g, fires, values) == g
  {
  }

  /**
   * Walks the genes of one individual, replacing gene a by `values[a]`
   * whenever the coin flip `fires[a]` fires.
   */
  method MutateGenes(g: seq<real>, fires: seq<bool>, values: seq<real>) returns (r: seq<real>)
    requires |fires| == |g| && |values| == |g|
    ensures r == MutateGenome(g, fires, values)
  {
    r := g;
    var a := 0;
    while a < |g|
      invariant 0 <= a <= |g| && |r| == |g|
      invariant forall b :: 0 <= b < |g| ==> r[b] == (if b < a && fires[b] then values[b] else g[b])
    {
      if fires[a] {
        r := r[a := values[a]];
      }
      a := a + 1;
    }
  }

  /**
   * Bernoulli draws with probability `prob`: a probability of zero or less
   * never fires, one of one or more always fires.
   */
  predicate BernoulliDraws(prob: real, fires: seq<bool>) {
    (prob <= 0.0 ==> forall k :: 0 <= k < |fires| ==> !fires[k])
    && (prob >= 1.0 ==> forall k :: 0 <= k < |fires| ==> fires[k])
  }

  /**
   * The draws of one generation: a cut point in [1, genomeSize - 1] per
   * child, and per child one coin flip and one replacement value per gene,
   * the values drawn uniformly from the allele range [lo, hi].
   */
  predicate GenerationDraws(popSize: nat, genomeSize: nat, prob: real, lo: real, hi: real,
                            cuts: seq<nat>, fires: seq<seq<bool>>, values: seq<seq<real>>)
    requires popSize >= 2
  {
    |cuts| == popSize - 2 && |fires| == popSize - 2 && |values| == popSize - 2
    && (forall k :: 0 <= k < popSize - 2 ==> 1 <= cuts[k] <= genomeSize - 1)
    && (forall k :: 0 <= k < popSize - 2 ==>
         |fires[k]| == genomeSize && |values[k]| == genomeSize && BernoulliDraws(prob, fires[k])
         && InRange(values[k], lo, hi))
  }

  /** One score per trial, trial t scored by `score(t)`. */
  function TrialScores(numTrials: nat, score: nat -> real): (s: seq<real>)
  {
    seq(numTrials, t requires 0 <= t < numTrials => score(t))
  }

  /** The score worker i reports for `genome`, aggregated over the trials. */
  function WorkerScore(aggregator: seq<real> --> real, numTrials: nat, i: nat, genome: seq<real>,
                       outcome: (nat, seq<real>, nat) -> real): real
    requires forall s: seq<real> :: |s| == numTrials ==> aggregator.requires(s)
  {
    aggregator(TrialScores(numTrials, (t: nat) => outcome(i, genome, t)))
  }

  /** The scores the workers report for the genomes of population `p`. */
  function WorkerScores(aggregator: seq<real> --> real, numTrials: nat, p: seq<Individual>,
                        outcome: (nat, seq<real>, nat) -> real): (s: seq<real>)
    requires forall s: seq<real> :: |s| == numTrials ==> aggregator.requires(s)
    ensures |s| == |p|
  {
    seq(|p|, i requires 0 <= i < |p| => WorkerScore(aggregator, numTrials, i, p[i].genome, outcome))
  }

  /**
   * The trials a worker runs for one individual: the loop functions are
   * told the trial number before the trial is reset and run, and the score
   * of trial t is stored at index t. `score` gives the score of a run of
   * the trial the loop functions are set to.
   */
  method RunTrials(lf: MpgaLoopFunctions, numTrials: nat, score: nat -> real) returns (scores: seq<real>)
    modifies lf
    ensures scores == TrialScores(numTrials, score)
    ensures numTrials > 0 ==> lf.GetTrial() == numTrials - 1
  {
    scores := seq(numTrials, _ => 0.0);
    var t := 0;
    while t < numTrials
      invariant 0 <= t <= numTrials && |scores| == numTrials
      invariant forall k :: 0 <= k < t ==> scores[k] == score(k)
      invariant t > 0 ==> lf.GetTrial() == t - 1
    {
      lf.SetTrial(t);
      scores := scores[t := score(lf.GetTrial())];
      t := t + 1;
    }
  }

  /**
   * The master waits for one report per worker. It succeeds exactly when
   * the first `popSize` reports all say "stopped"; otherwise it gives up at
   * the first other report, having consumed the reports up to it.
   */
  method AwaitWorkers(reports: seq<WaitStatus>, popSize: nat) returns (ok: bool, consumed: nat)
    requires |reports| >= popSize
    ensures ok <==> AllStopped(reports, popSize)
    ensures ok ==> consumed == popSize
    ensures !ok ==> 0 < consumed <= popSize && reports[consumed - 1] != Stopped
    ensures forall k :: 0 <= k < consumed && reports[k] != Stopped ==> k == consumed - 1
  {
    var trialsLeft := popSize;
    consumed := 0;
    while trialsLeft > 0
      invariant consumed + trialsLeft == popSize
      invariant forall k :: 0 <= k < consumed ==> reports[k] == Stopped
    {
      var status := reports[consumed];
      consumed := consumed + 1;
      if status != Stopped {
        return false, consumed;
      }
      trialsLeft := trialsLeft - 1;
    }
    ok := true;
  }

  /** The genetic algorithm run by the master process. */
  class GA {
    var population: seq<Individual>
    var generation: nat
    const alleleMin: real
    const alleleMax: real
    const genomeSize: nat
    const popSize: nat
    const mutationProb: real
    const numTrials: nat
    const generations: nat
    const aggregator: seq<real> --> real
    const comparator: Comparator
    /** Null once the shared memory has been released. */
    var sharedMem: SharedMem?

    ghost predicate Valid()
      reads this, sharedMem
    {
      sharedMem != null && sharedMem.Valid()
      && sharedMem.genomeSize == genomeSize && sharedMem.popSize == popSize
      && |population| == popSize && WellFormed(population, genomeSize)
      && GenomesInRange(population, alleleMin, alleleMax)
      && (forall s: seq<real> :: |s| == numTrials ==> aggregator.requires(s))
    }

    function NumChildren(): nat {
      if popSize >= 2 then popSize - 2 else 0
    }

    /**
     * Creates the shared memory and a population of `popSize`
     * individuals, individual p with the genome `initialGenomes[p]` drawn
     * from the allele range and a score of -1.
     */
    constructor(alleleMin: real, alleleMax: real, genomeSize: nat, popSize: nat,
                mutationProb: real, numTrials: nat, generations: nat, maximize: bool,
                aggregator: seq<real> --> real, initialGenomes: seq<seq<real>>)
      requires forall s: seq<real> :: |s| == numTrials ==> aggregator.requires(s)
      requires |initialGenomes| == popSize
      requires forall p :: 0 <= p < popSize ==>
        |initialGenomes[p]| == genomeSize && InRange(initialGenomes[p], alleleMin, alleleMax)
      ensures Valid() && fresh(sharedMem) && fresh(sharedMem.mem)
      ensures generation == 0 && comparator == ComparatorFor(maximize)
      ensures this.alleleMin == alleleMin && this.alleleMax == alleleMax
      ensures this.genomeSize == genomeSize && this.popSize == popSize
      ensures this.mutationProb == mutationProb && this.numTrials == numTrials
      ensures this.generations == generations && this.aggregator == aggregator
      ensures |population| == popSize
      ensures forall p :: 0 <= p < popSize ==>
        population[p] == Individual(initialGenomes[p], -1.0)
    {
      this.alleleMin := alleleMin;
      this.alleleMax := alleleMax;
      this.genomeSize := genomeSize;
      this.popSize := popSize;
      this.mutationProb := mutationProb;
      this.numTrials := numTrials;
      this.generations := generations;
      this.aggregator := aggregator;
      comparator := ComparatorFor(maximize);
      generation := 0;
      sharedMem := new SharedMem(genomeSize, popSize);
      var pop: seq<Individual> := [];
      var p := 0;
      while p < popSize
        invariant 0 <= p <= popSize && |pop| == p
        invariant forall q :: 0 <= q < p ==> pop[q] == Individual(initialGenomes[q], -1.0)
      {
        var genome: seq<real> := [];
        var g := 0;
        while g < genomeSize
          invariant 0 <= g <= genomeSize && genome == initialGenomes[p][..g]
        {
          genome := genome + [initialGenomes[p][g]];
          g := g + 1;
        }
        pop := pop + [Individual(genome, -1.0)];
        p := p + 1;
      }
      population := pop;
    }

    function GetPopulation(): seq<Individual>
      reads this
    {
      population
    }

    function GetGeneration(): nat
      reads this
    {
      generation
    }

    /** The run is over once the generation counter reaches the limit. */
    predicate Done()
      reads this
    {
      generation >= generations
    }

    /** Releases the shared memory. */
    method Cleanup()
      modifies this`sharedMem
      ensures sharedMem == null
    {
      sharedMem := null;
    }

    /**
     * What worker i does once resumed: it reads its genome from the shared
     * memory, runs the trials and stores the aggregated score in its slot.
     */
    method RunWorker(i: nat, outcome: (nat, seq<real>, nat) -> real)
      requires Valid() && i < popSize
      modifies sharedMem.mem
      ensures Valid()
      ensures SlotBase(genomeSize, i) + genomeSize < sharedMem.mem.Length
      ensures sharedMem.mem[..] == WriteScore(old(sharedMem.mem[..]), genomeSize, i,
        WorkerScore(aggregator, numTrials, i, old(sharedMem.GetGenome(i)), outcome))
    {
      var genome := sharedMem.GetGenome(i);
      var lf := new MpgaLoopFunctions();
      var scores := RunTrials(lf, numTrials, (t: nat) => outcome(i, genome, t));
      sharedMem.SetScore(i, aggregator(scores));
    }

    /**
     * The dispatch half of an evaluation round: every genome is written to
     * its slot and its worker is resumed, so that every slot ends up holding
     * the score its worker reports for that genome.
     */
    method Dispatch(outcome: (nat, seq<real>, nat) -> real)
      requires Valid()
      modifies sharedMem.mem
      ensures Valid()
      ensures forall j :: 0 <= j < popSize ==>
        sharedMem.GetScore(j) == WorkerScores(aggregator, numTrials, population, outcome)[j]
    {
      ghost var scores := WorkerScores(aggregator, numTrials, population, outcome);
      var i := 0;
      while i < popSize
        invariant 0 <= i <= popSize && Valid()
        invariant forall j :: 0 <= j < i ==> sharedMem.GetScore(j) == scores[j]
      {
        ghost var before := sharedMem.mem[..];
        sharedMem.SetGenome(i, population[i].genome);
        GenomeRoundTrip(before, genomeSize, popSize, i, population[i].genome);
        ghost var written := sharedMem.mem[..];
        assert sharedMem.GetGenome(i) == population[i].genome;
        RunWorker(i, outcome);
        ScoreRoundTrip(written, genomeSize, popSize, i, scores[i]);
        i := i + 1;
      }
    }

    /** Gives individual i the score stored in slot i, for every i. */
    method CopyScores()
      requires Valid()
      modifies this`population
      ensures Valid()
      ensures population == Rescored(old(population), sharedMem.Scores())
    {
      var k := 0;
      while k < popSize
        invariant 0 <= k <= popSize && Valid()
        invariant forall j :: 0 <= j < popSize ==> population[j].genome == old(population)[j].genome
        invariant forall j :: 0 <= j < k ==> population[j].score == sharedMem.GetScore(j)
        invariant forall j :: k <= j < popSize ==> population[j] == old(population)[j]
      {
        population := population[k := population[k].(score := sharedMem.GetScore(k))];
        k := k + 1;
      }
    }

    /**
     * One evaluation round. Every genome is written to its slot and its
     * worker runs; the master then waits for `popSize` reports. If one of
     * them is not "stopped", the shared memory is released and the master
     * exits with status 1 without reading any score. Otherwise each
     * individual receives its worker's score and the population is sorted
     * best first with the stored comparator.
     */
    method Evaluate(outcome: (nat, seq<real>, nat) -> real, reports: seq<WaitStatus>)
      returns (r: EvaluationOutcome)
      requires Valid() && |reports| >= popSize
      modifies this, sharedMem.mem
      ensures generation == old(generation)
      ensures r == Evaluated <==> AllStopped(reports, popSize)
      ensures r.FatalExit? ==> r.code == 1 && sharedMem == null && population == old(population)
      ensures r == Evaluated ==> Valid() && sharedMem == old(sharedMem)
      ensures r == Evaluated ==> population == SortPopulation(comparator,
        Rescored(old(population), WorkerScores(aggregator, numTrials, old(population), outcome)))
    {
      Dispatch(outcome);
      var ok, _ := AwaitWorkers(reports, popSize);
      if !ok {
        Cleanup();
        return FatalExit(1);
      }
      CopyScores();
      assert sharedMem.Scores() == WorkerScores(aggregator, numTrials, old(population), outcome);
      ghost var rescored := population;
      population := SortPopulation(comparator, population);
      PermutationWellFormed(rescored, population, genomeSize);
      PermutationInRange(rescored, population, alleleMin, alleleMax);
      r := Evaluated;
    }

    /** Keeps the two best individuals, in order, and discards the rest. */
    method Selection()
      modifies this`population
      ensures population == if |old(population)| > 2 then old(population)[..2] else old(population)
    {
      while |population| > 2
        invariant population == old(population)[..|population|]
        invariant |old(population)| > 2 ==> |population| >= 2
        invariant |old(population)| <= 2 ==> population == old(population)
      {
        population := population[..|population| - 1];
      }
    }

    /**
     * Appends one child per non-elite place, child k being the offspring of
     * the first two individuals cut at `cuts[k]`; the parents are left as
     * they are. The source leaves the score of a new individual
     * uninitialised, so the contract says nothing about it.
     */
    method Crossover(cuts: seq<nat>)
      requires |population| >= 2
      requires |population[0].genome| == genomeSize && |population[1].genome| == genomeSize
      requires |cuts| == NumChildren()
      requires forall k :: 0 <= k < |cuts| ==> 1 <= cuts[k] <= genomeSize - 1
      modifies this`population
      ensures |population| == |old(population)| + NumChildren()
      ensures population[..|old(population)|] == old(population)
      ensures forall k :: 0 <= k < NumChildren() ==>
        population[|old(population)| + k].genome
          == Offspring(old(population)[0].genome, old(population)[1].genome, cuts[k])
    {
      var parent1 := population[0];
      var parent2 := population[1];
      var i := 2;
      while i < popSize
        invariant 2 <= i && (popSize >= 2 ==> i <= popSize) && i - 2 <= |cuts|
        invariant parent1 == old(population)[0] && parent2 == old(population)[1]
        invariant |population| == |old(population)| + (i - 2)
        invariant population[..|old(population)|] == old(population)
        invariant forall k :: 0 <= k < i - 2 ==>
          population[|old(population)| + k].genome == Offspring(parent1.genome, parent2.genome, cuts[k])
      {
        var cut := cuts[i - 2];
        var genome: seq<real> := [];
        var j := 0;
        while j < cut
          invariant 0 <= j <= cut && genome == parent1.genome[..j]
        {
          genome := genome + [parent1.genome[j]];
          j := j + 1;
        }
        while j < genomeSize
          invariant cut <= j <= genomeSize && genome == parent1.genome[..cut] + parent2.genome[cut..j]
        {
          genome := genome + [parent2.genome[j]];
          j := j + 1;
        }
        assert parent2.genome[cut..genomeSize] == parent2.genome[cut..];
        population := population + [Individual(genome, -1.0)];
        i := i + 1;
      }
    }

    /**
     * For every non-elite individual i >= 2, mutates its genome with the
     * coin flips `fires[i - 2]` and the replacement values `values[i - 2]`.
     * The two elites are never touched.
     */
    method Mutation(fires: seq<seq<bool>>, values: seq<seq<real>>)
      requires |population| == popSize && WellFormed(population, genomeSize)
      requires |fires| == NumChildren() && |values| == NumChildren()
      requires forall k :: 0 <= k < NumChildren() ==>
        |fires[k]| == genomeSize && |values[k]| == genomeSize && BernoulliDraws(mutationProb, fires[k])
      modifies this`population
      ensures |population| == popSize && WellFormed(population, genomeSize)
      ensures popSize >= 2 ==> population[..2] == old(population)[..2]
      ensures forall i :: 2 <= i < popSize ==>
        population[i] == old(population)[i].(genome :=
          MutateGenome(old(population)[i].genome, fires[i - 2], values[i - 2]))
    {
      var i := 2;
      while i < popSize
        invariant 2 <= i && (popSize >= 2 ==> i <= popSize) && (popSize < 2 ==> i == 2)
        invariant |population| == popSize && WellFormed(population, genomeSize)
        invariant forall j :: 0 <= j < popSize && (j < 2 || j >= i) ==> population[j] == old(population)[j]
        invariant forall j :: 2 <= j < i ==>
          population[j] == old(population)[j].(genome :=
            MutateGenome(old(population)[j].genome, fires[j - 2], values[j - 2]))
      {
        var genome := MutateGenes(population[i].genome, fires[i - 2], values[i - 2]);
        population := population[i := population[i].(genome := genome)];
        i := i + 1;
      }
    }

    /**
     * Advances to the next generation: the counter goes up by one, then
     * selection, crossover and mutation rebuild the population. The two
     * best individuals survive unchanged; child k is the offspring of the
     * two cut at `cuts[k]`, mutated by the k-th row of coin flips. Since
     * children copy their parents' genes and mutation draws from the
     * allele range, every gene stays in that range.
     */
    method NextGen(cuts: seq<nat>, fires: seq<seq<bool>>, values: seq<seq<real>>)
      requires Valid() && popSize >= 2 && genomeSize >= 2
      requires GenerationDraws(popSize, genomeSize, mutationProb, alleleMin, alleleMax, cuts, fires, values)
      modifies this`population, this`generation
      ensures Valid() && sharedMem == old(sharedMem)
      ensures generation == old(generation) + 1
      ensures population[..2] == old(population)[..2]
      ensures forall k :: 0 <= k < popSize - 2 ==>
        population[k + 2].genome == MutateGenome(
          Offspring(old(population)[0].genome, old(population)[1].genome, cuts[k]),
          fires[k], values[k])
    {
      ghost var parents := population[..2];
      generation := generation + 1;
      Selection();
      Crossover(cuts);
      ChildrenWellFormed(parents, population, cuts, genomeSize);
      Mutation(fires, values);
      NextPopulationInRange(parents, population, cuts, fires, values, mutationProb, alleleMin, alleleMax);
    }
  }
}
