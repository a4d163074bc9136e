/**
 * The neural-network base class shared by the perceptron and the
 * multi-layer CTRNN: an input buffer and an output buffer of reals, each
 * with a count that the configuration sets, plus the arithmetic both
 * networks use (weighted sums over row-major weight blocks and the
 * logistic sigmoid).
 */
module NeuralNetwork {
  /** Size in bytes of one Real (a double) in the source's build. */
  const RealSize: nat := 8

  /** Values the exponential oracle returns: exp is always positive. */
  type Positive = x: real | x > 0.0 witness 1.0

  /** The logistic sigmoid 1 / (1 + exp(-x)), with `exp` as an oracle. */
  function Sigmoid(exp: real -> Positive, x: real): (r: real)
    ensures 0.0 < r < 1.0
  {
    var e := exp(-x);
    assert 1.0 < 1.0 + e;
    1.0 / (1.0 + e)
  }

  /**
   * The weighted sum of the first `n` values of `v`, with weights read
   * from `w` starting at `offset`, added up in increasing order of j.
   */
  function Dot(w: seq<real>, offset: nat, v: seq<real>, n: nat): real
    requires offset + n <= |w| && n <= |v|
  {
    if n == 0 then 0.0 else Dot(w, offset, v, n - 1) + w[offset + n - 1] * v[n - 1]
  }

  /** A weighted sum does not read past its `n` terms. */
  lemma {:induction false} DotPrefix(w: seq<real>, w': seq<real>, offset: nat, v: seq<real>, v': seq<real>, n: nat)
    requires offset + n <= |w| && n <= |v| && offset + n <= |w'| && n <= |v'|
    requires w[offset..offset + n] == w'[offset..offset + n] && v[..n] == v'[..n]
    ensures Dot(w, offset, v, n) == Dot(w', offset, v', n)
  {
    if n > 0 {
      assert w[offset..offset + n - 1] == w[offset..offset + n][..n - 1];
      assert w'[offset..offset + n - 1] == w'[offset..offset + n][..n - 1];
      assert v[..n - 1] == v[..n][..n - 1];
      assert v'[..n - 1] == v'[..n][..n - 1];
      assert w[offset + n - 1] == w[offset..offset + n][n - 1];
      assert w'[offset + n - 1] == w'[offset..offset + n][n - 1];
      assert v[n - 1] == v[..n][n - 1];
      assert v'[n - 1] == v'[..n][n - 1];
      DotPrefix(w, w', offset, v, v', n - 1);
    }
  }

  /**
   * Row-major layout of a rows-by-cols block: entry (i, j) sits at
   * i * cols + j, every such index lies inside the block, and distinct
   * entries sit at distinct indices.
   */
  lemma {:induction false} RowMajor(i: nat, j: nat, rows: nat, cols: nat)
    requires i < rows && j < cols
    ensures i * cols + j < rows * cols
    ensures (i * cols + j) / cols == i && (i * cols + j) % cols == j
  {
    calc {
      i * cols + j;
    <  i * cols + cols;
    == (i + 1) * cols;
    <= { MulMonotone(i + 1, rows, cols); }
      rows * cols;
    }
    DivModUnique(i * cols + j, cols, i, j);
  }

  lemma {:induction false} MulMonotone(a: nat, b: nat, c: nat)
    requires a <= b
    ensures a * c <= b * c
  {
    var d := b - a;
    assert b * c == a * c + d * c;
  }

  lemma {:induction false} DivModUnique(x: nat, d: nat, q: nat, r: nat)
    requires r < d && x == q * d + r
    ensures x / d == q && x % d == r
  {
    var q', r' := x / d, x % d;
    assert x == q' * d + r';
    if q' < q {
      MulMonotone(q' + 1, q, d);
      assert false;
    } else if q < q' {
      MulMonotone(q + 1, q', d);
      assert false;
    }
  }

  /**
   * Every index of a rows-by-cols block is the position of exactly one
   * entry: the layout of `RowMajor` covers the block.
   */
  lemma {:induction false} RowMajorCovers(k: nat, rows: nat, cols: nat)
    requires k < rows * cols
    ensures cols > 0 && k / cols < rows && k == (k / cols) * cols + k % cols
  {
    if cols == 0 {
      assert false;
    }
    if k / cols >= rows {
      MulMonotone(rows, k / cols, cols);
      assert false;
    }
  }

  /** The buffer after `n` values of `values` are copied to slot `start` on. */
  function CopyValues(buffer: seq<real>, start: nat, n: nat, values: seq<real>): (r: seq<real>)
    requires start + n <= |buffer| && n <= |values|
    ensures |r| == |buffer|
    ensures forall k :: 0 <= k < |r| ==>
              r[k] == if start <= k < start + n then values[k - start] else buffer[k]
  {
    buffer[..start] + values[..n] + buffer[start + n..]
  }

  /**
   * The buffer after copying `n` BYTES of `values` to slot `start` on, as
   * the input-range setter does: n / RealSize whole values arrive, and when
   * n is not a multiple of RealSize the next slot ends up holding a mix of
   * old and new bytes, modelled as the arbitrary value `mixed`.
   */
  function CopyBytesAsWritten(buffer: seq<real>, start: nat, n: nat, values: seq<real>, mixed: real): (r: seq<real>)
    requires start + (n + RealSize - 1) / RealSize <= |buffer|
    requires (n + RealSize - 1) / RealSize <= |values|
    ensures |r| == |buffer|
    ensures forall k :: start <= k < start + n / RealSize ==> r[k] == values[k - start]
    ensures n % RealSize != 0 ==> r[start + n / RealSize] == mixed
    ensures forall k :: 0 <= k < |r| && !(start <= k < start + (n + RealSize - 1) / RealSize) ==>
              r[k] == buffer[k]
  {
    var whole := n / RealSize;
    if n % RealSize == 0 then CopyValues(buffer, start, whole, values)
    else CopyValues(buffer, start, whole, values)[start + whole := mixed]
  }

  /**
   * Copying n bytes leaves the last of n requested slots untouched as
   * soon as two values are requested, so the byte copy never does what
   * the value copy does: for instance two inputs set from [1.0, 2.0] over
   * [0.0, 0.0] leave the second input at 0.0.
   */
  lemma BytesCopyMissesLastValue(buffer: seq<real>, start: nat, n: nat, values: seq<real>, mixed: real)
    requires n >= 2 && start + n <= |buffer| && n <= |values|
    ensures (n + RealSize - 1) / RealSize <= n
    ensures CopyBytesAsWritten(buffer, start, n, values, mixed)[start + n - 1] == buffer[start + n - 1]
    ensures CopyValues(buffer, start, n, values)[start + n - 1] == values[n - 1]
  {
  }

  lemma SetTwoInputsAsWritten(mixed: real)
    ensures CopyBytesAsWritten([0.0, 0.0], 0, 2, [1.0, 2.0], mixed)[1] == 0.0
    ensures CopyValues([0.0, 0.0], 0, 2, [1.0, 2.0]) == [1.0, 2.0]
  {
    BytesCopyMissesLastValue([0.0, 0.0], 0, 2, [1.0, 2.0], mixed);
    assert CopyValues([0.0, 0.0], 0, 2, [1.0, 2.0])[0] == 1.0;
  }

  /** Input and output buffers of a network, with their configured counts. */
  class Network {
    var numberOfInputs: nat
    var numberOfOutputs: nat
    var inputs: array?<real>
    var outputs: array?<real>

    /** Both counts are 0 and neither buffer exists. */
    constructor ()
      ensures numberOfInputs == 0 && numberOfOutputs == 0
      ensures inputs == null && outputs == null
    {
      numberOfInputs := 0;
      numberOfOutputs := 0;
      inputs := null;
      outputs := null;
    }

    /** The counts agree with the buffers, as after Init. */
    predicate Sized()
      reads this
    {
      inputs != null && outputs != null && inputs != outputs &&
      inputs.Length == numberOfInputs && outputs.Length == numberOfOutputs
    }

    /**
     * Takes the counts from the configuration and allocates a fresh
     * zero-filled buffer of each size.
     */
    method Init(numInputs: nat, numOutputs: nat)
      modifies this
      ensures numberOfInputs == numInputs && numberOfOutputs == numOutputs
      ensures inputs != null && fresh(inputs) && outputs != null && fresh(outputs)
      ensures Sized()
      ensures forall k :: 0 <= k < inputs.Length ==> inputs[k] == 0.0
      ensures forall k :: 0 <= k < outputs.Length ==> outputs[k] == 0.0
    {
      numberOfInputs := numInputs;
      inputs := new real[numInputs](_ => 0.0);
      numberOfOutputs := numOutputs;
      outputs := new real[numOutputs](_ => 0.0);
    }

    /**
     * Zeroes the first numberOfInputs inputs and the first numberOfOutputs
     * outputs; the buffers, the counts and every later slot stay as they were.
     */
    method Reset()
      requires numberOfInputs == 0 || (inputs != null && numberOfInputs <= inputs.Length)
      requires numberOfOutputs == 0 || (outputs != null && numberOfOutputs <= outputs.Length)
      modifies inputs, outputs
      ensures forall k :: 0 <= k < numberOfInputs ==> inputs[k] == 0.0
      ensures forall k :: 0 <= k < numberOfOutputs ==> outputs[k] == 0.0
      ensures inputs != null && inputs != outputs ==>
                forall k :: numberOfInputs <= k < inputs.Length ==> inputs[k] == old(inputs[k])
      ensures outputs != null && inputs != outputs ==>
                forall k :: numberOfOutputs <= k < outputs.Length ==> outputs[k] == old(outputs[k])
    {
      if numberOfInputs > 0 {
        forall k | 0 <= k < numberOfInputs {
          inputs[k] := 0.0;
        }
      }
      if numberOfOutputs > 0 {
        forall k | 0 <= k < numberOfOutputs {
          outputs[k] := 0.0;
        }
      }
    }

    /** Drops both buffers and sets both counts to 0, whatever the state was. */
    method Destroy()
      modifies this
      ensures numberOfInputs == 0 && numberOfOutputs == 0
      ensures inputs == null && outputs == null
    {
      inputs := null;
      numberOfInputs := 0;
      outputs := null;
      numberOfOutputs := 0;
    }

    function GetNumberOfInputs(): nat
      reads this
    {
      numberOfInputs
    }

    function GetNumberOfOutputs(): nat
      reads this
    {
      numberOfOutputs
    }

    function GetOutput(i: nat): real
      requires outputs != null && i < outputs.Length
      reads this, outputs
    {
      outputs[i]
    }

    /** Changes the input count only: the buffer is not reallocated. */
    method SetNumberOfInputs(n: nat)
      modifies this`numberOfInputs
      ensures numberOfInputs == n
    {
      numberOfInputs := n;
    }

    /** Changes the output count only: the buffer is not reallocated. */
    method SetNumberOfOutputs(n: nat)
      modifies this`numberOfOutputs
      ensures numberOfOutputs == n
    {
      numberOfOutputs := n;
    }

    /** Writes input slot `i` and no other. */
    method SetInput(i: nat, value: real)
      requires inputs != null && i < inputs.Length
      modifies inputs
      ensures inputs[..] == old(inputs[..])[i := value]
    {
      inputs[i] := value;
    }

    /**
     * Sets the `n` inputs from slot `start` on to the first `n` values,
     * leaving every other input as it was (the behaviour the setter's
     * name and signature promise; see CopyBytesAsWritten for the code).
     */
    method SetInputRange(start: nat, n: nat, values: seq<real>)
      requires inputs != null && start + n <= inputs.Length && n <= |values|
      modifies inputs
      ensures inputs[..] == CopyValues(old(inputs[..]), start, n, values)
    {
      ghost var before := inputs[..];
      forall k | start <= k < start + n {
        inputs[k] := values[k - start];
      }
      assert inputs[..] == CopyValues(before, start, n, values);
    }
  }
}
