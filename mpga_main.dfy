/**
 * The program that runs the genetic algorithm: a population of 5
 * perceptron parameter sets of 98 genes in [-10, 10], 5 trials per
 * individual aggregated by their maximum, minimised over 100 generations,
 * with the best individual written out every 5 generations.
 */
module MpgaMain {
  import opened Mpga

  const GenomeSize: nat := 98
  const PopSize: nat := 5
  const MutationProb: real := 0.05
  const NumTrials: nat := 5
  const Generations: nat := 100
  const AlleleMin: real := -10.0
  const AlleleMax: real := 10.0
  const FlushPeriod: nat := 5

  function Max(a: real, b: real): real { if a > b then a else b }

  /**
   * The aggregated score of an individual: the largest of its trial
   * scores. It reads the first score, so at least one is needed.
   */
  function ScoreAggregator(scores: seq<real>): (best: real)
    requires |scores| > 0
    ensures best in scores
    ensures forall k :: 0 <= k < |scores| ==> scores[k] <= best
    ensures |scores| == 1 ==> best == scores[0]
    decreases |scores|
  {
    if |scores| == 1 then scores[0]
    else Max(ScoreAggregator(scores[..|scores| - 1]), scores[|scores| - 1])
  }

  /** One value written to the output file. */
  datatype Token = Count(n: nat) | Gene(value: real)

  /** The file written for a generation: its number and its values. */
  datatype Flush = Flush(generation: nat, tokens: seq<Token>)

  /**
   * Flush `f` is the file of generation `generation` holding `genome`: the
   * number of genes, then the genes in index order.
   */
  predicate Writes(f: Flush, generation: nat, genome: seq<real>) {
    f.generation == generation && |genome| >= GenomeSize
    && |f.tokens| == GenomeSize + 1 && f.tokens[0] == Count(GenomeSize)
    && forall i :: 0 <= i < GenomeSize ==> f.tokens[i + 1] == Gene(genome[i])
  }

  /** Flush k holds the head of the population evaluated in generation FlushPeriod * (k + 1). */
  predicate FlushesHeads(flushed: seq<Flush>, evaluated: seq<seq<Individual>>) {
    forall k :: 0 <= k < |flushed| ==>
      var g := FlushPeriod * (k + 1);
      g < |evaluated| && |evaluated[g]| > 0 && Writes(flushed[k], g, evaluated[g][0].genome)
  }

  /**
   * Writes the best individual of a generation: first the number of
   * genes, then the genes in index order.
   */
  method FlushIndividual(ind: Individual, generation: nat) returns (f: Flush)
    requires |ind.genome| >= GenomeSize
    ensures f.generation == generation
    ensures |f.tokens| == GenomeSize + 1 && f.tokens[0] == Count(GenomeSize)
    ensures forall i :: 0 <= i < GenomeSize ==> f.tokens[i + 1] == Gene(ind.genome[i])
  {
    var tokens := [Count(GenomeSize)];
    var i := 0;
    while i < GenomeSize
      invariant 0 <= i <= GenomeSize && |tokens| == i + 1 && tokens[0] == Count(GenomeSize)
      invariant forall k :: 0 <= k < i ==> tokens[k + 1] == Gene(ind.genome[k])
    {
      tokens := tokens + [Gene(ind.genome[i])];
      i := i + 1;
    }
    f := Flush(generation, tokens);
  }

  /** Reaching generation n + 1 adds a flush exactly when it is a multiple of the period. */
  lemma FlushSchedule(n: nat)
    ensures (n + 1) / FlushPeriod == n / FlushPeriod + (if (n + 1) % FlushPeriod == 0 then 1 else 0)
    ensures (n + 1) % FlushPeriod == 0 ==> n + 1 == FlushPeriod * ((n + 1) / FlushPeriod)
  {
  }

  /** Creates the GA with the program's settings and evaluates the initial population. */
  method Launch(initialGenomes: seq<seq<real>>, outcome: (nat, seq<real>, nat) -> real,
                reports: seq<WaitStatus>)
    returns (ga: GA, r: EvaluationOutcome)
    requires |initialGenomes| == PopSize
    requires forall p :: 0 <= p < PopSize ==>
      |initialGenomes[p]| == GenomeSize && InRange(initialGenomes[p], AlleleMin, AlleleMax)
    requires |reports| >= PopSize
    ensures fresh(ga) && ga.popSize == PopSize && ga.genomeSize == GenomeSize
    ensures ga.mutationProb == MutationProb && ga.generations == Generations
    ensures ga.alleleMin == AlleleMin && ga.alleleMax == AlleleMax
    ensures ga.comparator == SortLowToHigh && ga.generation == 0
    ensures r == Evaluated <==> AllStopped(reports, PopSize)
    ensures r.FatalExit? ==> r.code == 1
    ensures r == Evaluated ==> ga.Valid() && fresh(ga.sharedMem) && fresh(ga.sharedMem.mem)
    ensures r == Evaluated ==> SortedBy(SortLowToHigh, ga.population)
  {
    ga := new GA(AlleleMin, AlleleMax, GenomeSize, PopSize, MutationProb, NumTrials,
                 Generations, false, s requires |s| > 0 => ScoreAggregator(s), initialGenomes);
    r := ga.Evaluate(outcome, reports);
  }

  /** One iteration of the generation loop: a new generation, then its evaluation. */
  method NextRound(ga: GA, cuts: seq<nat>, fires: seq<seq<bool>>, values: seq<seq<real>>,
                   outcome: (nat, seq<real>, nat) -> real, reports: seq<WaitStatus>)
    returns (r: EvaluationOutcome)
    requires ga.Valid() && ga.popSize == PopSize && ga.genomeSize == GenomeSize
    requires GenerationDraws(PopSize, GenomeSize, ga.mutationProb, ga.alleleMin, ga.alleleMax, cuts, fires, values)
    requires |reports| >= PopSize
    modifies ga, ga.sharedMem.mem
    ensures ga.generation == old(ga.generation) + 1
    ensures r == Evaluated <==> AllStopped(reports, PopSize)
    ensures r.FatalExit? ==> r.code == 1
    ensures r == Evaluated ==> ga.Valid() && ga.sharedMem == old(ga.sharedMem)
    ensures r == Evaluated ==> SortedBy(ga.comparator, ga.population)
  {
    ga.NextGen(cuts, fires, values);
    r := ga.Evaluate(outcome, reports);
  }

  /**
   * Writes the best individual, population[0], when the generation is a
   * multiple of the flush period, after the flushes already written; so
   * flushes stay one per multiple reached.
   */
  method FlushIfDue(ga: GA, flushed: seq<Flush>) returns (flushed': seq<Flush>)
    requires ga.Valid() && ga.genomeSize == GenomeSize && ga.popSize == PopSize
    requires ga.generation > 0 && |flushed| == (ga.generation - 1) / FlushPeriod
    requires forall k :: 0 <= k < |flushed| ==> flushed[k].generation == FlushPeriod * (k + 1)
    ensures |flushed'| == ga.generation / FlushPeriod
    ensures forall k :: 0 <= k < |flushed'| ==> flushed'[k].generation == FlushPeriod * (k + 1)
    ensures flushed'[..|flushed|] == flushed
    ensures ga.generation % FlushPeriod == 0 ==>
              Writes(flushed'[|flushed'| - 1], ga.generation, ga.population[0].genome)
    ensures ga.generation % FlushPeriod != 0 ==> flushed' == flushed
  {
    FlushSchedule(ga.generation - 1);
    flushed' := flushed;
    if ga.GetGeneration() % FlushPeriod == 0 {
      var f := FlushIndividual(ga.GetPopulation()[0], ga.GetGeneration());
      flushed' := flushed' + [f];
    }
  }

  /**
   * The program: one evaluation, then generation after generation a new
   * population and its evaluation until the generation limit is reached.
   * `outcome(e)` gives the trial scores of evaluation e and `reports(e)`
   * the worker reports the master receives in it; `cuts(g)`, `fires(g)`
   * and `values(g)` are the draws of generation g. When every evaluation
   * succeeds the program exits with 0 after exactly `Generations` new
   * generations and `Generations + 1` evaluations, having written the best
   * individual of every fifth generation; when one fails it exits with 1.
   * `evaluated[g]` is the population as evaluation g leaves it, sorted best
   * (lowest score) first, and flush k holds the head of evaluation 5(k + 1).
   */
  method RunExperiment(
    initialGenomes: seq<seq<real>>,
    outcome: nat -> (nat, seq<real>, nat) -> real,
    reports: nat -> seq<WaitStatus>,
    cuts: nat -> seq<nat>,
    fires: nat -> seq<seq<bool>>,
    values: nat -> seq<seq<real>>)
    returns (exitCode: int, nextGens: nat, evaluations: nat, flushed: seq<Flush>,
             ghost evaluated: seq<seq<Individual>>)
    requires |initialGenomes| == PopSize
    requires forall p :: 0 <= p < PopSize ==>
      |initialGenomes[p]| == GenomeSize && InRange(initialGenomes[p], AlleleMin, AlleleMax)
    requires forall e :: |reports(e)| >= PopSize
    requires forall g :: GenerationDraws(PopSize, GenomeSize, MutationProb, AlleleMin, AlleleMax, cuts(g), fires(g), values(g))
    ensures exitCode == 0 || exitCode == 1
    ensures exitCode == 0 <==> forall e :: 0 <= e <= Generations ==> AllStopped(reports(e), PopSize)
    ensures exitCode == 0 ==> nextGens == Generations && evaluations == Generations + 1
    ensures exitCode == 0 ==> |flushed| == Generations / FlushPeriod
    ensures forall k :: 0 <= k < |flushed| ==> flushed[k].generation == FlushPeriod * (k + 1)
    ensures exitCode == 1 ==> evaluations == nextGens + 1 && !AllStopped(reports(nextGens), PopSize)
    ensures |evaluated| == evaluations - exitCode
    ensures forall g :: 0 <= g < |evaluated| ==>
              |evaluated[g]| == PopSize && SortedBy(SortLowToHigh, evaluated[g])
    ensures FlushesHeads(flushed, evaluated)
  {
    var ga, r := Launch(initialGenomes, outcome(0), reports(0));
    nextGens, evaluations, flushed, evaluated := 0, 1, [], [];
    if r.FatalExit? {
      return r.code, nextGens, evaluations, flushed, evaluated;
    }
    evaluated := [ga.population];
    while !ga.Done()
      invariant ga.Valid() && fresh(ga) && fresh(ga.sharedMem) && fresh(ga.sharedMem.mem)
      invariant ga.popSize == PopSize && ga.genomeSize == GenomeSize
      invariant ga.mutationProb == MutationProb && ga.generations == Generations
      invariant ga.alleleMin == AlleleMin && ga.alleleMax == AlleleMax
      invariant ga.generation == nextGens <= Generations && evaluations == nextGens + 1
      invariant forall e :: 0 <= e < evaluations ==> AllStopped(reports(e), PopSize)
      invariant |flushed| == nextGens / FlushPeriod
      invariant forall k :: 0 <= k < |flushed| ==> flushed[k].generation == FlushPeriod * (k + 1)
      invariant ga.comparator == SortLowToHigh
      invariant |evaluated| == evaluations && evaluated[nextGens] == ga.population
      invariant forall g :: 0 <= g < |evaluated| ==>
                  |evaluated[g]| == PopSize && SortedBy(SortLowToHigh, evaluated[g])
      invariant FlushesHeads(flushed, evaluated)
      decreases Generations - nextGens
    {
      r := NextRound(ga, cuts(nextGens), fires(nextGens), values(nextGens),
                     outcome(evaluations), reports(evaluations));
      nextGens := nextGens + 1;
      evaluations := evaluations + 1;
      if r.FatalExit? {
        return r.code, nextGens, evaluations, flushed, evaluated;
      }
      evaluated := evaluated + [ga.population];
      flushed := FlushIfDue(ga, flushed);
    }
    exitCode := 0;
  }
}
