/**
 * The single-layer perceptron: (inputs + 1) * outputs weights, laid out
 * one row per output with the bias first, and a sigmoid on each output.
 */
module Perceptron {
  import opened Wrappers
  import opened NeuralNetwork

  /** The number of weights the configured counts call for. */
  function ExpectedWeights(numInputs: nat, numOutputs: nat): nat
  {
    (numInputs + 1) * numOutputs
  }

  /** Where the bias of output `i` sits: the first entry of its row. */
  function BiasIndex(numInputs: nat, i: nat): nat
  {
    i * (numInputs + 1)
  }

  /** Where the weight from input `j` to output `i` sits. */
  function WeightIndex(numInputs: nat, i: nat, j: nat): nat
  {
    i * (numInputs + 1) + j + 1
  }

  /**
   * Every bias and weight index lies inside the weight buffer, and each
   * index of the buffer is used by exactly one (output, input-or-bias) pair.
   */
  lemma {:induction false} WeightLayout(numInputs: nat, numOutputs: nat, i: nat, j: nat)
    requires i < numOutputs && j < numInputs
    ensures BiasIndex(numInputs, i) < ExpectedWeights(numInputs, numOutputs)
    ensures WeightIndex(numInputs, i, j) < ExpectedWeights(numInputs, numOutputs)
    ensures BiasIndex(numInputs, i) / (numInputs + 1) == i && BiasIndex(numInputs, i) % (numInputs + 1) == 0
    ensures WeightIndex(numInputs, i, j) / (numInputs + 1) == i && WeightIndex(numInputs, i, j) % (numInputs + 1) == j + 1
  {
    RowMajor(i, 0, numOutputs, numInputs + 1);
    RowMajor(i, j + 1, numOutputs, numInputs + 1);
  }

  /** Each weight index k belongs to output k / (I + 1): the rows cover the buffer. */
  lemma WeightOwner(numInputs: nat, numOutputs: nat, k: nat)
    requires k < ExpectedWeights(numInputs, numOutputs)
    ensures k / (numInputs + 1) < numOutputs
    ensures k % (numInputs + 1) == 0 ==> k == BiasIndex(numInputs, k / (numInputs + 1))
    ensures k % (numInputs + 1) > 0 ==>
              k == WeightIndex(numInputs, k / (numInputs + 1), k % (numInputs + 1) - 1)
  {
    RowMajorCovers(k, numOutputs, numInputs + 1);
  }

  /** The value of output `i` before the sigmoid: its bias plus the weighted inputs. */
  function NetInput(w: seq<real>, x: seq<real>, numInputs: nat, i: nat, n: nat): real
    requires n <= numInputs <= |x| && (i + 1) * (numInputs + 1) <= |w|
  {
    w[BiasIndex(numInputs, i)] + Dot(w, BiasIndex(numInputs, i) + 1, x, n)
  }

  /** Accumulates output `i`'s bias and then its weighted inputs, in input order. */
  method NetInputOf(weights: array<real>, inputs: array<real>, numInputs: nat, i: nat) returns (sum: real)
    requires numInputs <= inputs.Length && (i + 1) * (numInputs + 1) <= weights.Length
    ensures sum == NetInput(weights[..], inputs[..], numInputs, i, numInputs)
  {
    sum := weights[BiasIndex(numInputs, i)];
    var j := 0;
    while j < numInputs
      invariant 0 <= j <= numInputs
      invariant sum == NetInput(weights[..], inputs[..], numInputs, i, j)
    {
      sum := sum + weights[WeightIndex(numInputs, i, j)] * inputs[j];
      j := j + 1;
    }
  }

  class Perceptron {
    const net: Network
    var numberOfWeights: nat
    var weights: array?<real>

    /** No weights yet; the base network starts empty. */
    constructor ()
      ensures numberOfWeights == 0 && weights == null
      ensures net.numberOfInputs == 0 && net.numberOfOutputs == 0
      ensures net.inputs == null && net.outputs == null
      ensures fresh(net)
    {
      net := new Network();
      numberOfWeights := 0;
      weights := null;
    }

    /**
     * Loads the first `numParams` entries of `params` as the weights.
     * The expected count is stored before it is compared; a mismatch
     * fails before any weight is written. The buffer is allocated only
     * when there is none, and is reused by later loads.
     */
    method LoadNetworkParameters(numParams: nat, params: seq<real>) returns (r: Result<()>)
      requires numParams <= |params|
      requires weights != null ==> ExpectedWeights(net.numberOfInputs, net.numberOfOutputs) <= weights.Length
      modifies this`numberOfWeights, this`weights, weights
      ensures numberOfWeights == ExpectedWeights(net.numberOfInputs, net.numberOfOutputs)
      ensures r.Fail? <==> numParams != numberOfWeights
      ensures r.Fail? ==> weights == old(weights) && (weights != null ==> weights[..] == old(weights[..]))
      ensures old(weights) != null ==> weights == old(weights)
      ensures old(weights) == null && r.Ok? ==> weights != null && fresh(weights)
      ensures r.Ok? ==> weights != null && numberOfWeights <= weights.Length
      ensures r.Ok? ==> forall k :: 0 <= k < numberOfWeights ==> weights[k] == params[k]
      ensures r.Ok? && old(weights) != null ==>
                forall k :: numberOfWeights <= k < weights.Length ==> weights[k] == old(weights[k])
    {
      numberOfWeights := ExpectedWeights(net.numberOfInputs, net.numberOfOutputs);
      if numParams != numberOfWeights {
        return Fail("Number of parameter mismatch");
      }
      var buffer: array<real>;
      if weights == null {
        buffer := new real[numberOfWeights];
        weights := buffer;
      } else {
        buffer := weights;
      }
      ghost var before := buffer[..];
      var i := 0;
      while i < numberOfWeights
        invariant 0 <= i <= numberOfWeights <= buffer.Length
        invariant weights == buffer && numberOfWeights == numParams
        invariant forall k :: 0 <= k < i ==> buffer[k] == params[k]
        invariant forall k :: i <= k < buffer.Length ==> buffer[k] == before[k]
      {
        buffer[i] := params[i];
        i := i + 1;
      }
      return Ok(());
    }

    /** Forwards its arguments to LoadNetworkParameters unchanged. */
    method SetOnlineParameters(numParams: nat, params: seq<real>) returns (r: Result<()>)
      requires numParams <= |params|
      requires weights != null ==> ExpectedWeights(net.numberOfInputs, net.numberOfOutputs) <= weights.Length
      modifies this`numberOfWeights, this`weights, weights
      ensures numberOfWeights == ExpectedWeights(net.numberOfInputs, net.numberOfOutputs)
      ensures r.Fail? <==> numParams != numberOfWeights
      ensures r.Fail? ==> weights == old(weights) && (weights != null ==> weights[..] == old(weights[..]))
      ensures old(weights) != null ==> weights == old(weights)
      ensures old(weights) == null && r.Ok? ==> weights != null && fresh(weights)
      ensures r.Ok? ==> weights != null && numberOfWeights <= weights.Length
      ensures r.Ok? ==> forall k :: 0 <= k < numberOfWeights ==> weights[k] == params[k]
      ensures r.Ok? && old(weights) != null ==>
                forall k :: numberOfWeights <= k < weights.Length ==> weights[k] == old(weights[k])
    {
      r := LoadNetworkParameters(numParams, params);
    }

    /**
     * Sets output i, for every i below the output count, to the sigmoid of
     * its bias plus the weighted inputs; outputs past the count and every
     * other buffer keep their values.
     */
    method ComputeOutputs(exp: real -> Positive)
      requires net.inputs != null && net.outputs != null && weights != null
      requires net.numberOfInputs <= net.inputs.Length && net.numberOfOutputs <= net.outputs.Length
      requires ExpectedWeights(net.numberOfInputs, net.numberOfOutputs) <= weights.Length
      requires net.outputs != net.inputs && net.outputs != weights
      modifies net.outputs
      ensures forall i :: 0 <= i < net.numberOfOutputs ==>
                net.outputs[i] == Sigmoid(exp, NetInput(weights[..], net.inputs[..], net.numberOfInputs, i, net.numberOfInputs))
      ensures forall i :: 0 <= i < net.numberOfOutputs ==> 0.0 < net.outputs[i] < 1.0
      ensures forall i :: net.numberOfOutputs <= i < net.outputs.Length ==> net.outputs[i] == old(net.outputs[i])
    {
      var numInputs, numOutputs := net.numberOfInputs, net.numberOfOutputs;
      var outputs, inputs := net.outputs, net.inputs;
      ghost var w, x := weights[..], inputs[..];
      var i := 0;
      while i < numOutputs
        invariant 0 <= i <= numOutputs
        invariant forall k :: 0 <= k < i ==> outputs[k] == Sigmoid(exp, NetInput(w, x, numInputs, k, numInputs))
        invariant forall k :: i <= k < outputs.Length ==> outputs[k] == old(outputs[k])
      {
        MulMonotone(i + 1, numOutputs, numInputs + 1);
        var sum := NetInputOf(weights, inputs, numInputs, i);
        outputs[i] := Sigmoid(exp, sum);
        i := i + 1;
      }
    }

    /** Drops the weights and sets their count to 0. */
    method Destroy()
      modifies this`numberOfWeights, this`weights
      ensures numberOfWeights == 0 && weights == null
    {
      weights := null;
      numberOfWeights := 0;
    }
  }
}
