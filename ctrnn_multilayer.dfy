/**
 * The multi-layer continuous-time recurrent network: a hidden layer of H
 * nodes with their own states, fed by the I inputs and by each other, and
 * an output layer of O sigmoid nodes fed by the hidden layer. A genome of
 * values in [0, 1] is mapped onto six blocks of parameters, in the order
 * input-to-hidden weights, hidden-to-hidden weights, hidden biases, hidden
 * time constants, hidden-to-output weights and output biases.
 */
module CtrnnMultilayer {
  import opened Wrappers
  import opened NeuralNetwork

  /** A closed interval [min, max] of parameter values. */
  datatype Range = Range(min: real, max: real)

  const DefaultTimeStep: real := 0.1
  const DefaultWeightsBounds: Range := Range(-4.0, 4.0)
  const DefaultBiasesBounds: Range := Range(-4.0, 4.0)
  /** Time constants are 10 raised to a value in this range. */
  const DefaultTausBounds: Range := Range(-1.0, 3.0)

  /** The gene `p` mapped onto the range: p * (max - min) + min. */
  function Affine(p: real, r: Range): real
  {
    p * (r.max - r.min) + r.min
  }

  /**
   * The mapping sends 0 to the lower bound and 1 to the upper bound, and
   * every gene in [0, 1] into the range.
   */
  lemma AffineInRange(p: real, r: Range)
    requires r.min <= r.max
    ensures Affine(0.0, r) == r.min && Affine(1.0, r) == r.max
    ensures 0.0 <= p <= 1.0 ==> r.min <= Affine(p, r) <= r.max
  {
    if 0.0 <= p <= 1.0 {
      var width := r.max - r.min;
      assert 0.0 <= p * width by {
        assert 0.0 <= width;
      }
      assert p * width <= 1.0 * width by {
        assert (1.0 - p) * width >= 0.0;
      }
    }
  }

  /** The time constant a gene stands for: 10 to the mapped gene. */
  function Tau(p: real, r: Range, pow10: real -> Positive): Positive
  {
    pow10(Affine(p, r))
  }

  /** The number of entries of a rows-by-cols block of weights. */
  function Area(rows: nat, cols: nat): nat
  {
    rows * cols
  }

  /** The parameter count the configured sizes call for. */
  function ExpectedParameters(numInputs: nat, numHidden: nat, numOutputs: nat): nat
  {
    numHidden * (numInputs + 1) + numHidden * numHidden + numOutputs * (numHidden + 1) + numHidden
  }

  /** Where each block of the genome starts, as the loading cursor reaches it. */
  function HiddenToHiddenAt(numInputs: nat, numHidden: nat): nat
  {
    Area(numInputs, numHidden)
  }

  function HiddenBiasesAt(numInputs: nat, numHidden: nat): nat
  {
    HiddenToHiddenAt(numInputs, numHidden) + Area(numHidden, numHidden)
  }

  function HiddenTausAt(numInputs: nat, numHidden: nat): nat
  {
    HiddenBiasesAt(numInputs, numHidden) + numHidden
  }

  function HiddenToOutputAt(numInputs: nat, numHidden: nat): nat
  {
    HiddenTausAt(numInputs, numHidden) + numHidden
  }

  function OutputBiasesAt(numInputs: nat, numHidden: nat, numOutputs: nat): nat
  {
    HiddenToOutputAt(numInputs, numHidden) + Area(numHidden, numOutputs)
  }

  /**
   * The six blocks together consume exactly the expected count: after the
   * output biases the cursor stands at the last parameter plus one, so no
   * read goes past the genome.
   */
  lemma {:induction false} CursorEndsAtCount(numInputs: nat, numHidden: nat, numOutputs: nat)
    ensures OutputBiasesAt(numInputs, numHidden, numOutputs) + numOutputs
              == ExpectedParameters(numInputs, numHidden, numOutputs)
  {
    assert numHidden * (numInputs + 1) == numInputs * numHidden + numHidden;
    assert numOutputs * (numHidden + 1) == numHidden * numOutputs + numOutputs;
  }

  /** The sigmoid of every hidden node's state plus its bias. */
  function Activations(states: seq<real>, biases: seq<real>, numHidden: nat, exp: real -> Positive): (z: seq<real>)
    requires numHidden <= |states| && numHidden <= |biases|
    ensures |z| == numHidden
    ensures forall j :: 0 <= j < numHidden ==> 0.0 < z[j] < 1.0
  {
    seq(numHidden, j requires 0 <= j < numHidden => Sigmoid(exp, states[j] + biases[j]))
  }

  /**
   * The change of hidden node `i`: minus its state, plus its weighted
   * inputs, plus the weighted activations of every hidden node. Row i of
   * each weight block starts at i times the row length.
   */
  function DeltaState(inputToHidden: seq<real>, hiddenToHidden: seq<real>, inputs: seq<real>,
                      states: seq<real>, biases: seq<real>, numInputs: nat, numHidden: nat,
                      i: nat, exp: real -> Positive): real
    requires i < numHidden && numHidden <= |states| && numHidden <= |biases| && numInputs <= |inputs|
    requires Area(numInputs, numHidden) <= |inputToHidden| && Area(numHidden, numHidden) <= |hiddenToHidden|
  {
    RowFits(i, numHidden, numInputs);
    RowFits(i, numHidden, numHidden);
    -states[i] + Dot(inputToHidden, i * numInputs, inputs, numInputs)
      + Dot(hiddenToHidden, i * numHidden, Activations(states, biases, numHidden, exp), numHidden)
  }

  /** The value of output `i`: the sigmoid of its weighted activations plus its bias. */
  function OutputValue(hiddenToOutput: seq<real>, outputBiases: seq<real>, states: seq<real>,
                       biases: seq<real>, numHidden: nat, numOutputs: nat, i: nat, exp: real -> Positive): (v: real)
    requires i < numOutputs <= |outputBiases| && numHidden <= |states| && numHidden <= |biases|
    requires Area(numHidden, numOutputs) <= |hiddenToOutput|
    ensures 0.0 < v < 1.0
  {
    RowFits(i, numOutputs, numHidden);
    Sigmoid(exp, Dot(hiddenToOutput, i * numHidden, Activations(states, biases, numHidden, exp), numHidden)
                 + outputBiases[i])
  }

  /** The buffer's contents, or nothing when there is no buffer. */
  function Items(a: array?<real>): seq<real>
    reads a
  {
    if a == null then [] else a[..]
  }

  /** Every entry of `a` from index `n` on holds what it held in the earlier state. */
  twostate predicate KeepsTail(a: array<real>, n: nat)
    reads a
  {
    forall k :: n <= k < a.Length ==> a[k] == old(a[k])
  }

  /** A buffer that exists is none of `others`. */
  predicate Apart(a: array?<real>, others: seq<array?<real>>)
  {
    a != null ==> a !in others
  }

  /** Eight fresh buffers of the given sizes, no two the same. */
  method NewBuffers(n1: nat, n2: nat, n3: nat, n4: nat, n5: nat, n6: nat, n7: nat, n8: nat)
    returns (a1: array<real>, a2: array<real>, a3: array<real>, a4: array<real>,
             a5: array<real>, a6: array<real>, a7: array<real>, a8: array<real>)
    ensures fresh(a1) && fresh(a2) && fresh(a3) && fresh(a4) && fresh(a5) && fresh(a6) && fresh(a7) && fresh(a8)
    ensures a1.Length == n1 && a2.Length == n2 && a3.Length == n3 && a4.Length == n4
    ensures a5.Length == n5 && a6.Length == n6 && a7.Length == n7 && a8.Length == n8
    ensures Apart(a1, [a2, a3, a4, a5, a6, a7, a8]) && Apart(a2, [a3, a4, a5, a6, a7, a8]) &&
            Apart(a3, [a4, a5, a6, a7, a8]) && Apart(a4, [a5, a6, a7, a8]) && Apart(a5, [a6, a7, a8]) &&
            Apart(a6, [a7, a8]) && Apart(a7, [a8])
  {
    a1 := new real[n1];
    a2 := new real[n2];
    a3 := new real[n3];
    a4 := new real[n4];
    a5 := new real[n5];
    a6 := new real[n6];
    a7 := new real[n7];
    a8 := new real[n8];
  }

  /** The first `n` entries of `a` are the genes from `offset` on, mapped onto `r`. */
  predicate AffineBlock(a: array<real>, params: seq<real>, offset: nat, n: nat, r: Range)
    reads a
  {
    offset + n <= |params| && n <= a.Length &&
    forall k :: 0 <= k < n ==> a[k] == Affine(params[offset + k], r)
  }

  /** The first `n` entries of `a` are the time constants of the genes from `offset` on. */
  predicate TauBlock(a: array<real>, params: seq<real>, offset: nat, n: nat, r: Range, pow10: real -> Positive)
    reads a
  {
    offset + n <= |params| && n <= a.Length &&
    forall k :: 0 <= k < n ==> a[k] == Tau(params[offset + k], r, pow10)
  }

  /** Writes the first `n` genes from `offset` on, mapped onto `r`, into `a`. */
  method FillAffine(a: array<real>, params: seq<real>, offset: nat, n: nat, r: Range)
    requires offset + n <= |params| && n <= a.Length
    modifies a
    ensures AffineBlock(a, params, offset, n, r)
    ensures KeepsTail(a, n)
  {
    for i := 0 to n
      invariant forall k :: 0 <= k < i ==> a[k] == Affine(params[offset + k], r)
      invariant forall k :: i <= k < a.Length ==> a[k] == old(a[k])
    {
      a[i] := Affine(params[offset + i], r);
    }
  }

  /** Row `i` of a block with rows of `cols` entries ends inside a `rows`-row block. */
  lemma {:induction false} RowFits(i: nat, rows: nat, cols: nat)
    requires i < rows
    ensures i * cols + cols <= Area(cols, rows)
  {
    MulMonotone(i + 1, rows, cols);
    assert (i + 1) * cols == i * cols + cols;
  }

  /** The weighted sum of the first `n` entries of `x`, weights from `row` on. */
  method WeightedSum(w: array<real>, row: nat, x: array<real>, n: nat) returns (sum: real)
    requires row + n <= w.Length && n <= x.Length
    ensures sum == Dot(w[..], row, x[..], n)
  {
    sum := 0.0;
    for j := 0 to n
      invariant sum == Dot(w[..], row, x[..], j)
    {
      sum := sum + w[row + j] * x[j];
    }
  }

  /** The weighted sum of the first `n` hidden activations, weights from `row` on. */
  method WeightedActivations(w: array<real>, row: nat, states: array<real>, biases: array<real>,
                             n: nat, exp: real -> Positive) returns (sum: real)
    requires row + n <= w.Length && n <= states.Length && n <= biases.Length
    ensures sum == Dot(w[..], row, Activations(states[..], biases[..], n, exp), n)
  {
    ghost var z := Activations(states[..], biases[..], n, exp);
    sum := 0.0;
    for j := 0 to n
      invariant sum == Dot(w[..], row, z, j)
    {
      var activation := Sigmoid(exp, states[j] + biases[j]);
      sum := sum + w[row + j] * activation;
    }
  }

  /**
   * Phase one of an integration step: the delta of every hidden node,
   * from the states as they are before the step.
   */
  method UpdateDeltas(deltas: array<real>, inputToHidden: array<real>, hiddenToHidden: array<real>,
                      inputs: array<real>, states: array<real>, biases: array<real>,
                      numInputs: nat, numHidden: nat, exp: real -> Positive)
    requires deltas != inputToHidden && deltas != hiddenToHidden && deltas != inputs
    requires deltas != states && deltas != biases
    requires numHidden <= deltas.Length && numHidden <= states.Length && numHidden <= biases.Length
    requires numInputs <= inputs.Length
    requires Area(numInputs, numHidden) <= inputToHidden.Length
    requires Area(numHidden, numHidden) <= hiddenToHidden.Length
    modifies deltas
    ensures forall i :: 0 <= i < numHidden ==>
              deltas[i] == DeltaState(inputToHidden[..], hiddenToHidden[..], inputs[..], states[..],
                                      biases[..], numInputs, numHidden, i, exp)
    ensures KeepsTail(deltas, numHidden)
  {
    for i := 0 to numHidden
      invariant forall k :: 0 <= k < i ==>
                  deltas[k] == DeltaState(inputToHidden[..], hiddenToHidden[..], inputs[..], states[..],
                                          biases[..], numInputs, numHidden, k, exp)
      invariant forall k :: i <= k < deltas.Length ==> deltas[k] == old(deltas[k])
    {
      RowFits(i, numHidden, numInputs);
      RowFits(i, numHidden, numHidden);
      var fromInputs := WeightedSum(inputToHidden, i * numInputs, inputs, numInputs);
      var fromHidden := WeightedActivations(hiddenToHidden, i * numHidden, states, biases, numHidden, exp);
      deltas[i] := -states[i] + fromInputs + fromHidden;
    }
  }

  /** One Euler step of a hidden state: it moves by delta * step / tau. */
  function Integrated(state: real, delta: real, timeStep: real, tau: real): real
    requires tau > 0.0
  {
    state + delta * timeStep / tau
  }

  /** Phase two of an integration step: every hidden state moves by delta * step / tau. */
  method Integrate(states: array<real>, deltas: array<real>, taus: array<real>, timeStep: real, numHidden: nat)
    requires states != deltas && states != taus
    requires numHidden <= states.Length && numHidden <= deltas.Length && numHidden <= taus.Length
    requires forall k :: 0 <= k < numHidden ==> taus[k] > 0.0
    modifies states
    ensures forall i :: 0 <= i < numHidden ==> states[i] == Integrated(old(states[i]), deltas[i], timeStep, taus[i])
    ensures KeepsTail(states, numHidden)
  {
    for i := 0 to numHidden
      invariant forall k :: 0 <= k < i ==> states[k] == Integrated(old(states[k]), deltas[k], timeStep, taus[k])
      invariant forall k :: i <= k < states.Length ==> states[k] == old(states[k])
    {
      states[i] := Integrated(states[i], deltas[i], timeStep, taus[i]);
    }
  }

  /** Phase three of an integration step: every output from the new hidden activations. */
  method UpdateOutputs(outputs: array<real>, hiddenToOutput: array<real>, outputBiases: array<real>,
                       states: array<real>, biases: array<real>, numHidden: nat, numOutputs: nat,
                       exp: real -> Positive)
    requires outputs != hiddenToOutput && outputs != outputBiases && outputs != states && outputs != biases
    requires numOutputs <= outputs.Length && numOutputs <= outputBiases.Length
    requires numHidden <= states.Length && numHidden <= biases.Length
    requires Area(numHidden, numOutputs) <= hiddenToOutput.Length
    modifies outputs
    ensures forall i :: 0 <= i < numOutputs ==>
              outputs[i] == OutputValue(hiddenToOutput[..], outputBiases[..], states[..], biases[..],
                                        numHidden, numOutputs, i, exp)
    ensures KeepsTail(outputs, numOutputs)
  {
    ghost var who, ob, s, b := hiddenToOutput[..], outputBiases[..], states[..], biases[..];
    for i := 0 to numOutputs
      invariant forall k :: 0 <= k < i ==> outputs[k] == OutputValue(who, ob, s, b, numHidden, numOutputs, k, exp)
      invariant forall k :: i <= k < outputs.Length ==> outputs[k] == old(outputs[k])
    {
      RowFits(i, numOutputs, numHidden);
      var sum := WeightedActivations(hiddenToOutput, i * numHidden, states, biases, numHidden, exp);
      outputs[i] := Sigmoid(exp, sum + outputBiases[i]);
    }
  }

  /** Writes the time constants of the first `n` genes from `offset` on into `a`. */
  method FillTaus(a: array<real>, params: seq<real>, offset: nat, n: nat, r: Range, pow10: real -> Positive)
    requires offset + n <= |params| && n <= a.Length
    modifies a
    ensures TauBlock(a, params, offset, n, r, pow10)
    ensures KeepsTail(a, n)
  {
    for i := 0 to n
      invariant forall k :: 0 <= k < i ==> a[k] == Tau(params[offset + k], r, pow10)
      invariant forall k :: i <= k < a.Length ==> a[k] == old(a[k])
    {
      a[i] := Tau(params[offset + i], r, pow10);
    }
  }

  class CtrnnMultilayer {
    const net: Network
    var numberOfHiddenNodes: nat
    var timeStep: real
    var weightsBounds: Range
    var biasesBounds: Range
    var tausBounds: Range

    var inputToHidden: array?<real>
    var hiddenToHidden: array?<real>
    var hiddenBiases: array?<real>
    var hiddenTaus: array?<real>
    var hiddenToOutput: array?<real>
    var outputBiases: array?<real>
    var hiddenDeltaStates: array?<real>
    var hiddenStates: array?<real>

    /** No hidden nodes and no buffers; the default step and bounds. */
    constructor ()
      ensures fresh(net) && net.inputs == null && net.outputs == null
      ensures net.numberOfInputs == 0 && net.numberOfOutputs == 0
      ensures numberOfHiddenNodes == 0 && timeStep == DefaultTimeStep
      ensures weightsBounds == DefaultWeightsBounds && biasesBounds == DefaultBiasesBounds
      ensures tausBounds == DefaultTausBounds
      ensures NoBuffers()
      ensures Separate()
    {
      net := new Network();
      inputToHidden, hiddenToHidden, hiddenBiases, hiddenTaus := null, null, null, null;
      hiddenToOutput, outputBiases, hiddenDeltaStates, hiddenStates := null, null, null, null;
      numberOfHiddenNodes := 0;
      timeStep := DefaultTimeStep;
      weightsBounds := DefaultWeightsBounds;
      biasesBounds := DefaultBiasesBounds;
      tausBounds := DefaultTausBounds;
    }

    /** The network's own eight buffers, in the order a load fills them. */
    function Own(): seq<array?<real>>
      reads this
    {
      [inputToHidden, hiddenToHidden, hiddenBiases, hiddenTaus, hiddenToOutput, outputBiases,
       hiddenDeltaStates, hiddenStates]
    }

    /** None of the network's own buffers exists. */
    predicate NoBuffers()
      reads this
    {
      inputToHidden == null && hiddenToHidden == null && hiddenBiases == null && hiddenTaus == null &&
      hiddenToOutput == null && outputBiases == null && hiddenDeltaStates == null && hiddenStates == null
    }

    /** All of the network's own buffers exist. */
    predicate AllBuffers()
      reads this
    {
      inputToHidden != null && hiddenToHidden != null && hiddenBiases != null && hiddenTaus != null &&
      hiddenToOutput != null && outputBiases != null && hiddenDeltaStates != null && hiddenStates != null
    }

    /** The contents of the network's own eight buffers. */
    function Contents(): seq<seq<real>>
      reads this, inputToHidden, hiddenToHidden, hiddenBiases, hiddenTaus, hiddenToOutput,
        outputBiases, hiddenDeltaStates, hiddenStates
    {
      [Items(inputToHidden), Items(hiddenToHidden), Items(hiddenBiases), Items(hiddenTaus),
       Items(hiddenToOutput), Items(outputBiases), Items(hiddenDeltaStates), Items(hiddenStates)]
    }

    /**
     * The own buffers exist all together or not at all (the constructor,
     * a load and Destroy leave them so), and no two buffers that exist,
     * the base network's included, are the same allocation.
     */
    predicate Separate()
      reads this, net
    {
      (NoBuffers() || AllBuffers()) &&
      Apart(inputToHidden, [hiddenToHidden, hiddenBiases, hiddenTaus, hiddenToOutput, outputBiases,
                            hiddenDeltaStates, hiddenStates, net.inputs, net.outputs]) &&
      Apart(hiddenToHidden, [hiddenBiases, hiddenTaus, hiddenToOutput, outputBiases,
                             hiddenDeltaStates, hiddenStates, net.inputs, net.outputs]) &&
      Apart(hiddenBiases, [hiddenTaus, hiddenToOutput, outputBiases, hiddenDeltaStates, hiddenStates,
                           net.inputs, net.outputs]) &&
      Apart(hiddenTaus, [hiddenToOutput, outputBiases, hiddenDeltaStates, hiddenStates, net.inputs, net.outputs]) &&
      Apart(hiddenToOutput, [outputBiases, hiddenDeltaStates, hiddenStates, net.inputs, net.outputs]) &&
      Apart(outputBiases, [hiddenDeltaStates, hiddenStates, net.inputs, net.outputs]) &&
      Apart(hiddenDeltaStates, [hiddenStates, net.inputs, net.outputs]) &&
      Apart(hiddenStates, [net.inputs, net.outputs]) &&
      Apart(net.inputs, [net.outputs])
    }

    /** Every buffer that exists is large enough for the configured sizes. */
    predicate Fits()
      reads this, net
    {
      var I, H, O := net.numberOfInputs, numberOfHiddenNodes, net.numberOfOutputs;
      (inputToHidden != null ==> Area(I, H) <= inputToHidden.Length) &&
      (hiddenToHidden != null ==> Area(H, H) <= hiddenToHidden.Length) &&
      (hiddenBiases != null ==> H <= hiddenBiases.Length) &&
      (hiddenTaus != null ==> H <= hiddenTaus.Length) &&
      (hiddenToOutput != null ==> Area(H, O) <= hiddenToOutput.Length) &&
      (outputBiases != null ==> O <= outputBiases.Length) &&
      (hiddenDeltaStates != null ==> H <= hiddenDeltaStates.Length) &&
      (hiddenStates != null ==> H <= hiddenStates.Length)
    }

    /**
     * Each own buffer keeps every entry past the size of its block, so a
     * reused buffer larger than the configuration needs keeps its tail.
     */
    twostate predicate TailsKept()
      requires AllBuffers() && Own() == old(Own())
      reads this, net, inputToHidden, hiddenToHidden, hiddenBiases, hiddenTaus, hiddenToOutput,
        outputBiases, hiddenDeltaStates, hiddenStates
    {
      var I, H, O := net.numberOfInputs, numberOfHiddenNodes, net.numberOfOutputs;
      KeepsTail(inputToHidden, Area(I, H)) && KeepsTail(hiddenToHidden, Area(H, H)) &&
      KeepsTail(hiddenBiases, H) && KeepsTail(hiddenTaus, H) && KeepsTail(hiddenToOutput, Area(H, O)) &&
      KeepsTail(outputBiases, O) && KeepsTail(hiddenDeltaStates, H) && KeepsTail(hiddenStates, H)
    }

    /**
     * Takes the sizes, the integration step and the three ranges from the
     * configuration; the base network allocates its zeroed buffers.
     */
    method Init(numInputs: nat, numOutputs: nat, numHidden: nat, step: real,
                weights: Range, biases: Range, taus: Range)
      modifies this, net
      ensures net.numberOfInputs == numInputs && net.numberOfOutputs == numOutputs
      ensures net.Sized() && fresh(net.inputs) && fresh(net.outputs)
      ensures forall k :: 0 <= k < net.inputs.Length ==> net.inputs[k] == 0.0
      ensures forall k :: 0 <= k < net.outputs.Length ==> net.outputs[k] == 0.0
      ensures numberOfHiddenNodes == numHidden && timeStep == step
      ensures weightsBounds == weights && biasesBounds == biases && tausBounds == taus
      ensures Own() == old(Own())
      ensures old(Separate()) ==> Separate()
    {
      net.Init(numInputs, numOutputs);
      numberOfHiddenNodes := numHidden;
      timeStep := step;
      weightsBounds := weights;
      biasesBounds := biases;
      tausBounds := taus;
    }

    /**
     * Loads a genome: a count other than the expected one fails before
     * anything is written. Otherwise each block is filled from the cursor
     * on (weights and biases mapped onto their range, time constants as
     * 10 to the mapped gene), missing buffers are allocated and existing
     * ones reused, and every hidden state and delta is zeroed.
     */
    method LoadNetworkParameters(numParams: nat, params: seq<real>, pow10: real -> Positive)
      returns (r: Result<()>)
      requires numParams <= |params| && Separate() && Fits()
      modifies this, inputToHidden, hiddenToHidden, hiddenBiases, hiddenTaus, hiddenToOutput,
        outputBiases, hiddenDeltaStates, hiddenStates
      ensures r.Fail? <==>
                numParams != ExpectedParameters(net.numberOfInputs, numberOfHiddenNodes, net.numberOfOutputs)
      ensures r.Fail? ==> Own() == old(Own()) && Contents() == old(Contents())
      ensures numberOfHiddenNodes == old(numberOfHiddenNodes) && timeStep == old(timeStep)
      ensures weightsBounds == old(weightsBounds) && biasesBounds == old(biasesBounds)
      ensures tausBounds == old(tausBounds)
      ensures old(AllBuffers()) ==> Own() == old(Own())
      ensures Separate() && Fits()
      ensures r.Ok? ==> Loaded(params, pow10)
      ensures old(AllBuffers()) ==> TailsKept()
    {
      var I, H, O := net.numberOfInputs, numberOfHiddenNodes, net.numberOfOutputs;
      if numParams != ExpectedParameters(I, H, O) {
        return Fail("Number of parameter mismatch");
      }
      CursorEndsAtCount(I, H, O);
      if NoBuffers() {
        Allocate();
      }
      FillBlocks(params, pow10);
      r := Ok(());
    }

    /** Forwards its arguments to LoadNetworkParameters unchanged. */
    method SetOnlineParameters(numParams: nat, params: seq<real>, pow10: real -> Positive)
      returns (r: Result<()>)
      requires numParams <= |params| && Separate() && Fits()
      modifies this, inputToHidden, hiddenToHidden, hiddenBiases, hiddenTaus, hiddenToOutput,
        outputBiases, hiddenDeltaStates, hiddenStates
      ensures r.Fail? <==>
                numParams != ExpectedParameters(net.numberOfInputs, numberOfHiddenNodes, net.numberOfOutputs)
      ensures r.Fail? ==> Own() == old(Own()) && Contents() == old(Contents())
      ensures numberOfHiddenNodes == old(numberOfHiddenNodes) && timeStep == old(timeStep)
      ensures weightsBounds == old(weightsBounds) && biasesBounds == old(biasesBounds)
      ensures tausBounds == old(tausBounds)
      ensures old(AllBuffers()) ==> Own() == old(Own())
      ensures Separate() && Fits()
      ensures r.Ok? ==> Loaded(params, pow10)
      ensures old(AllBuffers()) ==> TailsKept()
    {
      r := LoadNetworkParameters(numParams, params, pow10);
    }

    /**
     * The six blocks hold the genome's genes from their cursor positions
     * on, and every hidden state and delta is 0.
     */
    predicate Loaded(params: seq<real>, pow10: real -> Positive)
      reads this, net, inputToHidden, hiddenToHidden, hiddenBiases, hiddenTaus, hiddenToOutput,
        outputBiases, hiddenDeltaStates, hiddenStates
    {
      var I, H, O := net.numberOfInputs, numberOfHiddenNodes, net.numberOfOutputs;
      AllBuffers() &&
      AffineBlock(inputToHidden, params, 0, Area(I, H), weightsBounds) &&
      AffineBlock(hiddenToHidden, params, HiddenToHiddenAt(I, H), Area(H, H), weightsBounds) &&
      AffineBlock(hiddenBiases, params, HiddenBiasesAt(I, H), H, biasesBounds) &&
      TauBlock(hiddenTaus, params, HiddenTausAt(I, H), H, tausBounds, pow10) &&
      AffineBlock(hiddenToOutput, params, HiddenToOutputAt(I, H), Area(H, O), weightsBounds) &&
      AffineBlock(outputBiases, params, OutputBiasesAt(I, H, O), O, biasesBounds) &&
      H <= hiddenDeltaStates.Length && H <= hiddenStates.Length &&
      (forall k :: 0 <= k < H ==> hiddenDeltaStates[k] == 0.0 && hiddenStates[k] == 0.0)
    }

    /** Gives every block a fresh buffer of its size. */
    method Allocate()
      requires NoBuffers() && Separate()
      modifies this`inputToHidden, this`hiddenToHidden, this`hiddenBiases, this`hiddenTaus,
        this`hiddenToOutput, this`outputBiases, this`hiddenDeltaStates, this`hiddenStates
      ensures AllBuffers() && Separate() && Fits()
      ensures fresh(inputToHidden) && fresh(hiddenToHidden) && fresh(hiddenBiases) && fresh(hiddenTaus)
      ensures fresh(hiddenToOutput) && fresh(outputBiases) && fresh(hiddenDeltaStates) && fresh(hiddenStates)
    {
      var I, H, O := net.numberOfInputs, numberOfHiddenNodes, net.numberOfOutputs;
      var a1, a2, a3, a4, a5, a6, a7, a8 := NewBuffers(Area(I, H), Area(H, H), H, H, Area(H, O), O, H, H);
      inputToHidden, hiddenToHidden, hiddenBiases, hiddenTaus := a1, a2, a3, a4;
      hiddenToOutput, outputBiases, hiddenDeltaStates, hiddenStates := a5, a6, a7, a8;
    }

    /** The writes of a successful load into the existing buffers, block after block. */
    method FillBlocks(params: seq<real>, pow10: real -> Positive)
      requires AllBuffers() && Separate() && Fits()
      requires OutputBiasesAt(net.numberOfInputs, numberOfHiddenNodes, net.numberOfOutputs)
                 + net.numberOfOutputs <= |params|
      modifies inputToHidden, hiddenToHidden, hiddenBiases, hiddenTaus, hiddenToOutput,
        outputBiases, hiddenDeltaStates, hiddenStates
      ensures unchanged(this)
      ensures Loaded(params, pow10)
      ensures TailsKept()
    {
      var I, H, O := net.numberOfInputs, numberOfHiddenNodes, net.numberOfOutputs;
      FillAffine(inputToHidden, params, 0, Area(I, H), weightsBounds);
      FillAffine(hiddenToHidden, params, HiddenToHiddenAt(I, H), Area(H, H), weightsBounds);
      FillAffine(hiddenBiases, params, HiddenBiasesAt(I, H), H, biasesBounds);
      FillTaus(hiddenTaus, params, HiddenTausAt(I, H), H, tausBounds, pow10);
      FillAffine(hiddenToOutput, params, HiddenToOutputAt(I, H), Area(H, O), weightsBounds);
      FillAffine(outputBiases, params, OutputBiasesAt(I, H, O), O, biasesBounds);
      ZeroStates();
    }

    /** The buffers ComputeOutputs reads and writes exist and are large enough. */
    predicate Ready()
      reads this, net
    {
      AllBuffers() && Separate() && Fits() && net.inputs != null && net.outputs != null &&
      net.numberOfInputs <= net.inputs.Length && net.numberOfOutputs <= net.outputs.Length
    }

    /**
     * Weights and biases loaded from genes in [0, 1] lie within their
     * configured ranges.
     */
    lemma LoadedWithinBounds(params: seq<real>, pow10: real -> Positive)
      requires Loaded(params, pow10)
      requires weightsBounds.min <= weightsBounds.max && biasesBounds.min <= biasesBounds.max
      requires forall k :: 0 <= k < |params| ==> 0.0 <= params[k] <= 1.0
      ensures var I, H := net.numberOfInputs, numberOfHiddenNodes;
        forall k :: 0 <= k < Area(I, H) ==> weightsBounds.min <= inputToHidden[k] <= weightsBounds.max
      ensures var H := numberOfHiddenNodes;
        forall k :: 0 <= k < Area(H, H) ==> weightsBounds.min <= hiddenToHidden[k] <= weightsBounds.max
      ensures forall k :: 0 <= k < numberOfHiddenNodes ==> biasesBounds.min <= hiddenBiases[k] <= biasesBounds.max
      ensures forall k :: 0 <= k < numberOfHiddenNodes ==> hiddenTaus[k] > 0.0
      ensures var H, O := numberOfHiddenNodes, net.numberOfOutputs;
        forall k :: 0 <= k < Area(H, O) ==> weightsBounds.min <= hiddenToOutput[k] <= weightsBounds.max
      ensures forall k :: 0 <= k < net.numberOfOutputs ==> biasesBounds.min <= outputBiases[k] <= biasesBounds.max
    {
      var I, H, O := net.numberOfInputs, numberOfHiddenNodes, net.numberOfOutputs;
      forall k | 0 <= k < Area(I, H)
        ensures weightsBounds.min <= inputToHidden[k] <= weightsBounds.max
      {
        AffineInRange(params[k], weightsBounds);
      }
      forall k | 0 <= k < Area(H, H)
        ensures weightsBounds.min <= hiddenToHidden[k] <= weightsBounds.max
      {
        AffineInRange(params[HiddenToHiddenAt(I, H) + k], weightsBounds);
      }
      forall k | 0 <= k < H
        ensures biasesBounds.min <= hiddenBiases[k] <= biasesBounds.max
      {
        AffineInRange(params[HiddenBiasesAt(I, H) + k], biasesBounds);
      }
      forall k | 0 <= k < Area(H, O)
        ensures weightsBounds.min <= hiddenToOutput[k] <= weightsBounds.max
      {
        AffineInRange(params[HiddenToOutputAt(I, H) + k], weightsBounds);
      }
      forall k | 0 <= k < O
        ensures biasesBounds.min <= outputBiases[k] <= biasesBounds.max
      {
        AffineInRange(params[OutputBiasesAt(I, H, O) + k], biasesBounds);
      }
    }

    /**
     * One integration step: every hidden delta is computed from the
     * current states, then every state moves by delta * step / tau, then
     * every output is the sigmoid of the new activations it is wired to.
     */
    method ComputeOutputs(exp: real -> Positive)
      requires Ready()
      requires forall k :: 0 <= k < numberOfHiddenNodes ==> hiddenTaus[k] > 0.0
      modifies hiddenDeltaStates, hiddenStates, net.outputs
      ensures forall i :: 0 <= i < numberOfHiddenNodes ==>
                hiddenDeltaStates[i] == DeltaState(inputToHidden[..], hiddenToHidden[..], net.inputs[..],
                  old(hiddenStates[..]), hiddenBiases[..], net.numberOfInputs, numberOfHiddenNodes, i, exp)
      ensures forall i :: 0 <= i < numberOfHiddenNodes ==>
                hiddenStates[i] == Integrated(old(hiddenStates[i]), hiddenDeltaStates[i], timeStep, hiddenTaus[i])
      ensures forall i :: 0 <= i < net.numberOfOutputs ==>
                net.outputs[i] == OutputValue(hiddenToOutput[..], outputBiases[..], hiddenStates[..],
                  hiddenBiases[..], numberOfHiddenNodes, net.numberOfOutputs, i, exp)
      ensures forall i :: 0 <= i < net.numberOfOutputs ==> 0.0 < net.outputs[i] < 1.0
      ensures KeepsTail(hiddenDeltaStates, numberOfHiddenNodes) && KeepsTail(hiddenStates, numberOfHiddenNodes)
      ensures KeepsTail(net.outputs, net.numberOfOutputs)
    {
      var I, H, O := net.numberOfInputs, numberOfHiddenNodes, net.numberOfOutputs;
      ghost var wih, whh, x, s, b := inputToHidden[..], hiddenToHidden[..], net.inputs[..], hiddenStates[..], hiddenBiases[..];
      UpdateDeltas(hiddenDeltaStates, inputToHidden, hiddenToHidden, net.inputs, hiddenStates, hiddenBiases, I, H, exp);
      assert inputToHidden[..] == wih && hiddenToHidden[..] == whh && net.inputs[..] == x;
      assert hiddenStates[..] == s && hiddenBiases[..] == b;
      ghost var deltas := hiddenDeltaStates[..];
      assert forall i :: 0 <= i < H ==> deltas[i] == DeltaState(wih, whh, x, s, b, I, H, i, exp);
      Integrate(hiddenStates, hiddenDeltaStates, hiddenTaus, timeStep, H);
      UpdateOutputs(net.outputs, hiddenToOutput, outputBiases, hiddenStates, hiddenBiases, H, O, exp);
      assert hiddenDeltaStates[..] == deltas;
      assert inputToHidden[..] == wih && hiddenToHidden[..] == whh && net.inputs[..] == x && hiddenBiases[..] == b;
    }

    /** Sets every hidden delta and hidden state to 0; nothing else changes. */
    method ZeroStates()
      requires numberOfHiddenNodes == 0 ||
        (hiddenDeltaStates != null && hiddenStates != null && hiddenDeltaStates != hiddenStates &&
         numberOfHiddenNodes <= hiddenDeltaStates.Length && numberOfHiddenNodes <= hiddenStates.Length)
      modifies hiddenDeltaStates, hiddenStates
      ensures forall k :: 0 <= k < numberOfHiddenNodes ==> hiddenDeltaStates[k] == 0.0 && hiddenStates[k] == 0.0
      ensures hiddenDeltaStates != null ==> KeepsTail(hiddenDeltaStates, numberOfHiddenNodes)
      ensures hiddenStates != null ==> KeepsTail(hiddenStates, numberOfHiddenNodes)
    {
      if numberOfHiddenNodes > 0 {
        for i := 0 to numberOfHiddenNodes
          invariant forall k :: 0 <= k < i ==> hiddenDeltaStates[k] == 0.0 && hiddenStates[k] == 0.0
          invariant forall k :: i <= k < hiddenDeltaStates.Length ==> hiddenDeltaStates[k] == old(hiddenDeltaStates[k])
          invariant forall k :: i <= k < hiddenStates.Length ==> hiddenStates[k] == old(hiddenStates[k])
        {
          hiddenDeltaStates[i] := 0.0;
          hiddenStates[i] := 0.0;
        }
      }
    }

    /** Zeroes every hidden state and delta; the inputs and outputs keep their values. */
    method Reset()
      requires numberOfHiddenNodes == 0 ||
        (hiddenDeltaStates != null && hiddenStates != null && hiddenDeltaStates != hiddenStates &&
         numberOfHiddenNodes <= hiddenDeltaStates.Length && numberOfHiddenNodes <= hiddenStates.Length)
      modifies hiddenDeltaStates, hiddenStates
      ensures forall k :: 0 <= k < numberOfHiddenNodes ==> hiddenDeltaStates[k] == 0.0 && hiddenStates[k] == 0.0
      ensures hiddenDeltaStates != null ==> KeepsTail(hiddenDeltaStates, numberOfHiddenNodes)
      ensures hiddenStates != null ==> KeepsTail(hiddenStates, numberOfHiddenNodes)
    {
      ZeroStates();
    }

    /** Sets the hidden-node count to 0 and drops every buffer of its own. */
    method Destroy()
      requires Separate()
      modifies this
      ensures numberOfHiddenNodes == 0 && NoBuffers() && Separate()
      ensures net.inputs == old(net.inputs) && net.outputs == old(net.outputs)
    {
      numberOfHiddenNodes := 0;
      inputToHidden, hiddenToHidden, hiddenBiases, hiddenTaus := null, null, null, null;
      hiddenToOutput, outputBiases, hiddenDeltaStates, hiddenStates := null, null, null, null;
    }
  }
}
