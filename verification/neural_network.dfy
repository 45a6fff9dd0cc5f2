/**
 * The forward-pass engine: a Layer holds its activations, its bias vector and its
 * incoming weight matrix (row-major, `weights[i * P + j]` joins neuron j of the previous
 * layer, of size P, to neuron i of this one); a NeuralNetwork is a chain of layers.
 *
 * Arithmetic is on `real`. The activation function and the random draws are not part
 * of this model's code and come in as parameters: `sigmoid`, `random(a, b, k)` for the
 * k-th call `random(a, b)` while a layer is initialised, and, for the entry numbered k
 * during a mutation, its uniform draw `uniform(k)` (`rand()/RAND_MAX`) and its normal
 * draw `normal(k)` (`normalRandom()`).
 */
module NeuralNet {

  // ------------------------------------------------------------------
  // Row-major index arithmetic
  // ------------------------------------------------------------------

  /** Where weight (i, j) lives in a matrix with p columns. */
  function Index(i: nat, j: nat, p: nat): (r: nat)
  {
    i * p + j
  }

  lemma MulMonotone(a: nat, b: nat, p: nat)
    requires a <= b
    ensures a * p <= b * p
  {
    assert b * p == a * p + (b - a) * p;
  }

  /** Row i ends inside the n * p matrix. */
  lemma {:induction false} RowFits(i: nat, n: nat, p: nat)
    requires i < n
    ensures Index(i, 0, p) + p <= n * p
  {
    MulMonotone(i + 1, n, p);
    assert (i + 1) * p == i * p + p;
  }

  /** For i < n and j < p, the index i * p + j lies inside the n * p weight array. */
  lemma IndexInBounds(i: nat, j: nat, n: nat, p: nat)
    requires i < n && j < p
    ensures Index(i, j, p) < n * p
  {
    RowFits(i, n, p);
  }

  /** Row-major order: the loops of initWeigth visit strictly increasing indices. */
  lemma IndexOrdered(i: nat, j: nat, i2: nat, j2: nat, p: nat)
    requires j < p && j2 < p
    requires i < i2 || (i == i2 && j < j2)
    ensures Index(i, j, p) < Index(i2, j2, p)
  {
    if i < i2 {
      MulMonotone(i + 1, i2, p);
      assert (i + 1) * p == i * p + p;
    }
  }

  /** Distinct (row, column) pairs name distinct weights. */
  lemma IndexInjective(i: nat, j: nat, i2: nat, j2: nat, p: nat)
    requires j < p && j2 < p
    requires Index(i, j, p) == Index(i2, j2, p)
    ensures i == i2 && j == j2
  {
    if i < i2 || (i == i2 && j < j2) {
      IndexOrdered(i, j, i2, j2, p);
    } else if i2 < i || (i == i2 && j2 < j) {
      IndexOrdered(i2, j2, i, j, p);
    }
  }

  /** Every slot of the n * p array is the weight of some (row, column) pair. */
  lemma IndexCovers(k: nat, n: nat, p: nat)
    requires k < n * p
    ensures p > 0 && k / p < n && k % p < p
    ensures Index(k / p, k % p, p) == k
  {
  }

  // ------------------------------------------------------------------
  // What compute(previous) computes
  // ------------------------------------------------------------------

  /**
   * The weighted sum of row i of a matrix with p columns against the inputs x, over
   * its first m columns: w[i * p] * x[0] + ... + w[i * p + m - 1] * x[m - 1], added up
   * left to right.
   */
  function RowSum(w: seq<real>, i: nat, p: nat, x: seq<real>, m: nat): (r: real)
    requires Index(i, 0, p) + m <= |w| && m <= |x|
  {
    if m == 0 then 0.0 else RowSum(w, i, p, x, m - 1) + w[Index(i, m - 1, p)] * x[m - 1]
  }

  /** The sum reads only row i of the matrix. */
  lemma {:induction false} RowSumReadsOnlyItsRow(w: seq<real>, w2: seq<real>, i: nat, p: nat, x: seq<real>, m: nat)
    requires Index(i, 0, p) + m <= |w| && Index(i, 0, p) + m <= |w2| && m <= |x|
    requires forall j :: 0 <= j < m ==> w[Index(i, j, p)] == w2[Index(i, j, p)]
    ensures RowSum(w, i, p, x, m) == RowSum(w2, i, p, x, m)
  {
    if m > 0 {
      RowSumReadsOnlyItsRow(w, w2, i, p, x, m - 1);
    }
  }

  /** Activation i after compute(previous): sigmoid(bias[i] + sum over j of weights[i * P + j] * x[j]). */
  function Activation(bias: seq<real>, weights: seq<real>, x: seq<real>, i: nat, sigmoid: real -> real): (r: real)
    requires i < |bias| && |weights| == |bias| * |x|
  {
    RowFits(i, |bias|, |x|);
    sigmoid(bias[i] + RowSum(weights, i, |x|, x, |x|))
  }

  /** Each activation depends only on its own bias and its own row of weights (besides the inputs). */
  lemma ActivationReadsOnlyItsRow(bias: seq<real>, weights: seq<real>, bias2: seq<real>, weights2: seq<real>,
                                  x: seq<real>, i: nat, sigmoid: real -> real)
    requires i < |bias| && |weights| == |bias| * |x|
    requires |bias2| == |bias| && |weights2| == |weights|
    requires bias2[i] == bias[i]
    requires forall j :: 0 <= j < |x| && Index(i, j, |x|) < |weights| ==> weights2[Index(i, j, |x|)] == weights[Index(i, j, |x|)]
    ensures Activation(bias2, weights2, x, i, sigmoid) == Activation(bias, weights, x, i, sigmoid)
  {
    RowFits(i, |bias|, |x|);
    RowSumReadsOnlyItsRow(weights, weights2, i, |x|, x, |x|);
  }

  /** Mutation perturbs by this multiple of a standard normal draw. */
  const MutationScale: real := 0.05

  /** The score and fitness of a network that has not been scored yet. */
  const Unscored: real := -1.0

  // ------------------------------------------------------------------
  // Layer
  // ------------------------------------------------------------------

  class Layer {
    var neurons: array<real>
    var bias: array<real>
    var weights: array<real>

    /** The three arrays are separate storage. */
    ghost predicate Valid()
      reads this
    {
      neurons != bias && neurons != weights && bias != weights
    }

    /** Neither bias nor weights: the input layer, or a layer built without a previous layer. */
    ghost predicate Unwired()
      reads this
    {
      bias.Length == 0 && weights.Length == 0
    }

    /**
     * What initWeigth leaves behind for a previous layer of p neurons: each bias entry
     * holds its own random(-1, 1) draw and each weight its own random(0, 1) draw, taken
     * in loop order (bias i, then weights (i, 0) .. (i, p - 1), then bias i + 1, ...).
     */
    ghost predicate Initialised(random: (real, real, nat) -> real, p: nat)
      reads this, bias, weights
    {
      bias.Length == Size() && weights.Length == Size() * p &&
      (forall i :: 0 <= i < Size() ==> bias[i] == random(-1.0, 1.0, Index(i, 0, p + 1))) &&
      (forall i, j :: 0 <= i < Size() && 0 <= j < p ==>
         Index(i, j, p) < weights.Length && weights[Index(i, j, p)] == random(0.0, 1.0, Index(i, j + 1, p + 1)))
    }

    /** size(): the number of activations. */
    function Size(): (n: nat)
      reads this
      ensures n == neurons.Length
    {
      neurons.Length
    }

    /** The const operator[]: reads activation `index`. */
    function At(index: nat): (v: real)
      reads this, neurons
      requires index < Size()
      ensures v == neurons[index]
    {
      neurons[index]
    }

    /** The mutable operator[], used to store v: only activation `index` changes. */
    method SetAt(index: nat, v: real)
      requires Valid() && index < Size()
      modifies neurons
      ensures neurons[index] == v
      ensures forall k :: 0 <= k < neurons.Length && k != index ==> neurons[k] == old(neurons[k])
      ensures bias[..] == old(bias[..]) && weights[..] == old(weights[..])
    {
      neurons[index] := v;
    }

    /**
     * Layer(neurons, previous_layer = nullptr): `n` zero activations; with a previous
     * layer, also `n` bias entries and `n * previous.size()` weights, filled by initWeigth.
     */
    constructor (n: nat, random: (real, real, nat) -> real, previous: Layer? := null)
      ensures Valid() && fresh(neurons) && fresh(bias) && fresh(weights)
      ensures neurons.Length == n && forall i :: 0 <= i < n ==> neurons[i] == 0.0
      ensures previous == null ==> Unwired()
      ensures previous != null ==> Initialised(random, previous.Size())
    {
      neurons := new real[n](_ => 0.0);
      var p := if previous != null then previous.Size() else 0;
      bias := new real[if previous != null then n else 0];
      weights := new real[if previous != null then n * p else 0];
      new;
      if previous != null {
        InitWeights(p, random);
      }
    }

    /** initWeigth(previousLayerSize): one draw per bias entry and per weight, in loop order. */
    method InitWeights(p: nat, random: (real, real, nat) -> real)
      requires Valid() && bias.Length == Size() && weights.Length == Size() * p
      modifies bias, weights
      ensures Initialised(random, p)
    {
      var n := neurons.Length;
      var draw := 0;
      var i := 0;
      while i < n
        invariant 0 <= i <= n
        invariant draw == Index(i, 0, p + 1)
        invariant forall i' :: 0 <= i' < i ==> bias[i'] == random(-1.0, 1.0, Index(i', 0, p + 1))
        invariant forall i', j' :: 0 <= i' < i && 0 <= j' < p ==>
                    Index(i', j', p) < weights.Length && weights[Index(i', j', p)] == random(0.0, 1.0, Index(i', j' + 1, p + 1))
      {
        bias[i] := random(-1.0, 1.0, draw);
        draw := draw + 1;
        var j := 0;
        while j < p
          invariant 0 <= j <= p
          invariant draw == Index(i, j + 1, p + 1)
          invariant forall i' :: 0 <= i' <= i ==> bias[i'] == random(-1.0, 1.0, Index(i', 0, p + 1))
          invariant forall i', j' :: 0 <= j' < p && (0 <= i' < i || (i' == i && 0 <= j' < j)) ==>
                      Index(i', j', p) < weights.Length && weights[Index(i', j', p)] == random(0.0, 1.0, Index(i', j' + 1, p + 1))
        {
          IndexInBounds(i, j, n, p);
          forall i', j' | 0 <= j' < p && (0 <= i' < i || (i' == i && 0 <= j' < j))
            ensures Index(i', j', p) < Index(i, j, p)
          {
            IndexOrdered(i', j', i, j, p);
          }
          weights[Index(i, j, p)] := random(0.0, 1.0, draw);
          draw := draw + 1;
          j := j + 1;
        }
        assert Index(i + 1, 0, p + 1) == Index(i, p + 1, p + 1);
        i := i + 1;
      }
    }

    /** compute(previous): every activation from the previous layer's; bias and weights are only read. */
    method Compute(previous: Layer, sigmoid: real -> real)
      requires Valid() && previous.neurons != neurons
      requires bias.Length == Size() && weights.Length == Size() * previous.Size()
      modifies neurons
      ensures forall i :: 0 <= i < Size() ==>
                neurons[i] == Activation(bias[..], weights[..], previous.neurons[..], i, sigmoid)
      ensures bias[..] == old(bias[..]) && weights[..] == old(weights[..])
      ensures previous.neurons[..] == old(previous.neurons[..])
    {
      var n := neurons.Length;
      ghost var b, w, x := bias[..], weights[..], previous.neurons[..];
      var i := 0;
      while i < n
        invariant 0 <= i <= n
        invariant bias[..] == b && weights[..] == w && previous.neurons[..] == x
        invariant forall k :: 0 <= k < i ==> neurons[k] == Activation(b, w, x, k, sigmoid)
      {
        RowFits(i, n, previous.Size());
        var s := WeightedInput(previous, i);
        neurons[i] := sigmoid(s);
        i := i + 1;
      }
    }

    /** The argument of the sigmoid for activation i: bias[i] plus row i of the weights applied to the previous activations. */
    method WeightedInput(previous: Layer, i: nat) returns (s: real)
      requires i < bias.Length && Index(i, 0, previous.Size()) + previous.Size() <= weights.Length
      ensures s == bias[i] + RowSum(weights[..], i, previous.Size(), previous.neurons[..], previous.Size())
    {
      var p := previous.Size();
      s := bias[i];
      var j := 0;
      while j < p
        invariant 0 <= j <= p
        invariant s == bias[i] + RowSum(weights[..], i, p, previous.neurons[..], j)
      {
        s := s + weights[Index(i, j, p)] * previous.At(j);
        j := j + 1;
      }
    }

    /** compute(inputs): activation i is sigmoid(inputs[i]); nothing else is read or written. */
    method ComputeInputs(inputs: seq<real>, sigmoid: real -> real)
      requires Valid() && |inputs| >= Size()
      modifies neurons
      ensures forall i :: 0 <= i < Size() ==> neurons[i] == sigmoid(inputs[i])
      ensures bias[..] == old(bias[..]) && weights[..] == old(weights[..])
    {
      var i := 0;
      while i < neurons.Length
        invariant 0 <= i <= neurons.Length
        invariant forall k :: 0 <= k < i ==> neurons[k] == sigmoid(inputs[k])
      {
        neurons[i] := sigmoid(inputs[i]);
        i := i + 1;
      }
    }

    /**
     * mutate(): an entry whose uniform draw is below `rate` gains 0.05 times its normal
     * draw; every other entry, and every activation, stays as it was. Entries are
     * numbered bias first, then weights.
     */
    method Mutate(rate: real, uniform: nat -> real, normal: nat -> real)
      requires Valid()
      modifies bias, weights
      ensures forall i :: 0 <= i < bias.Length ==>
                bias[i] == Perturbed(old(bias[i]), rate, uniform(i), normal(i))
      ensures forall j :: 0 <= j < weights.Length ==>
                weights[j] == Perturbed(old(weights[j]), rate, uniform(bias.Length + j), normal(bias.Length + j))
      ensures neurons[..] == old(neurons[..])
    {
      MutateEntries(bias, 0, rate, uniform, normal);
      MutateEntries(weights, bias.Length, rate, uniform, normal);
    }
  }

  /** What mutate() does to one entry, given its uniform draw and its normal draw. */
  function Perturbed(x: real, rate: real, draw: real, noise: real): (r: real)
    ensures rate > draw ==> r == x + noise * MutationScale
    ensures rate <= draw ==> r == x
  {
    if rate > draw then x + noise * MutationScale else x
  }

  /** One loop of mutate(): entry k of `a` is perturbed with the draws numbered first + k. */
  method MutateEntries(a: array<real>, first: nat, rate: real, uniform: nat -> real, normal: nat -> real)
    modifies a
    ensures forall k :: 0 <= k < a.Length ==> a[k] == Perturbed(old(a[k]), rate, uniform(first + k), normal(first + k))
  {
    var k := 0;
    while k < a.Length
      invariant 0 <= k <= a.Length
      invariant forall k' :: 0 <= k' < k ==> a[k'] == Perturbed(old(a[k']), rate, uniform(first + k'), normal(first + k'))
      invariant forall k' :: k <= k' < a.Length ==> a[k'] == old(a[k'])
    {
      if rate > uniform(first + k) {
        a[k] := a[k] + normal(first + k) * MutationScale;
      }
      k := k + 1;
    }
  }

  /** initWeigth never hands the same draw to a bias entry and to a weight. */
  lemma BiasAndWeightDrawsDistinct(i: nat, i2: nat, j2: nat, p: nat)
    requires j2 < p
    ensures Index(i, 0, p + 1) != Index(i2, j2 + 1, p + 1)
  {
    if i <= i2 {
      IndexOrdered(i, 0, i2, j2 + 1, p + 1);
    } else {
      IndexOrdered(i2, j2 + 1, i, 0, p + 1);
    }
  }

  /**
   * After initWeigth, weight k of the flat array (row k / p, column k % p) holds draw
   * number k + k / p + 1: the draws that are not bias draws, in order, so no weight is
   * skipped and none shares a draw with another entry.
   */
  lemma EveryWeightDrawn(l: Layer, random: (real, real, nat) -> real, p: nat)
    requires l.Initialised(random, p)
    ensures forall k :: 0 <= k < l.weights.Length ==> l.weights[k] == random(0.0, 1.0, k + k / p + 1)
  {
    forall k | 0 <= k < l.weights.Length
      ensures l.weights[k] == random(0.0, 1.0, k + k / p + 1)
    {
      var i, j := k / p, k % p;
      IndexCovers(k, l.Size(), p);
      WeightDrawNumber(i, j, p);
      assert l.weights[Index(i, j, p)] == random(0.0, 1.0, Index(i, j + 1, p + 1));
    }
  }

  /** Weight (i, j) is preceded by i + 1 bias draws and by the weights before it. */
  lemma WeightDrawNumber(i: nat, j: nat, p: nat)
    ensures Index(i, j + 1, p + 1) == Index(i, j, p) + i + 1
  {
    assert i * (p + 1) == i * p + i;
  }

  // ------------------------------------------------------------------
  // NeuralNetwork
  // ------------------------------------------------------------------

  /** NeuralParameters, in the order of its fields. */
  datatype NeuralParameters = NeuralParameters(nhiddenlayer: nat, ninput: nat, nhidden: nat, noutput: nat)

  /** Two distinct layers, neither of which uses an array of the other. */
  ghost predicate Apart(a: Layer, b: Layer)
    reads a, b
  {
    a != b &&
    a.neurons != b.neurons && a.neurons != b.bias && a.neurons != b.weights &&
    a.bias != b.neurons && a.bias != b.bias && a.bias != b.weights &&
    a.weights != b.neurons && a.weights != b.bias && a.weights != b.weights
  }

  /** What a vector of Layer values holds: layers that are pairwise apart. */
  ghost predicate Separate(ls: seq<Layer>)
    reads ls
  {
    forall k, k' :: 0 <= k < k' < |ls| ==> Apart(ls[k], ls[k'])
  }

  /** A layer that shares nothing with the layers before it keeps the sequence separate. */
  lemma {:induction false} SeparateAppend(ls: seq<Layer>, l: Layer)
    requires Separate(ls)
    requires forall k :: 0 <= k < |ls| ==> Apart(ls[k], l)
    ensures Separate(ls + [l])
  {
    var ls' := ls + [l];
    forall k, k' | 0 <= k < k' < |ls'|
      ensures Apart(ls'[k], ls'[k'])
    {
      if k' == |ls| {
        assert ls'[k] == ls[k] && ls'[k'] == l;
      } else {
        assert ls'[k] == ls[k] && ls'[k'] == ls[k'];
      }
    }
  }

  /**
   * Builds one more layer of `n` neurons, wired to `previous` when there is one, apart
   * from every layer already built.
   */
  method AppendLayer(ls: seq<Layer>, n: nat, random: (real, real, nat) -> real, previous: Layer?)
    returns (r: seq<Layer>)
    requires Separate(ls)
    ensures |r| == |ls| + 1 && forall k :: 0 <= k < |ls| ==> r[k] == ls[k]
    ensures Separate(r)
    ensures fresh(r[|ls|]) && fresh(r[|ls|].neurons) && fresh(r[|ls|].bias) && fresh(r[|ls|].weights)
    ensures r[|ls|].Valid() && r[|ls|].Size() == n
    ensures previous == null ==> r[|ls|].Unwired()
    ensures previous != null ==> r[|ls|].Initialised(random, previous.Size())
  {
    var l := new Layer(n, random, previous);
    forall k | 0 <= k < |ls|
      ensures Apart(ls[k], l)
    {
    }
    SeparateAppend(ls, l);
    r := ls + [l];
  }

  /**
   * The layer vector the NeuralNetwork constructor fills: an input layer of `ninput`
   * neurons, `nhiddenlayer` layers of `nhidden` neurons built without a previous layer,
   * and an output layer of `noutput` neurons wired to the layer before it, each apart
   * from the others.
   */
  method BuildLayers(params: NeuralParameters, random: (real, real, nat) -> real)
    returns (ls: seq<Layer>)
    ensures |ls| == 2 + params.nhiddenlayer
    ensures forall k :: 0 <= k < |ls| ==>
              fresh(ls[k]) && ls[k].Valid() &&
              fresh(ls[k].neurons) && fresh(ls[k].bias) && fresh(ls[k].weights)
    ensures Separate(ls)
    ensures ls[0].Size() == params.ninput && ls[0].Unwired()
    ensures forall k :: 1 <= k <= params.nhiddenlayer ==> ls[k].Size() == params.nhidden && ls[k].Unwired()
    ensures ls[|ls| - 1].Size() == params.noutput
    ensures ls[|ls| - 1].Initialised(random, if params.nhiddenlayer == 0 then params.ninput else params.nhidden)
  {
    ls := AppendLayer([], params.ninput, random, null);
    var i := 0;
    while i < params.nhiddenlayer
      invariant 0 <= i <= params.nhiddenlayer && |ls| == i + 1
      invariant forall k :: 0 <= k < |ls| ==>
                  fresh(ls[k]) && ls[k].Valid() &&
                  fresh(ls[k].neurons) && fresh(ls[k].bias) && fresh(ls[k].weights)
      invariant Separate(ls)
      invariant ls[0].Size() == params.ninput && ls[0].Unwired()
      invariant forall k :: 1 <= k < |ls| ==> ls[k].Size() == params.nhidden && ls[k].Unwired()
    {
      ls := AppendLayer(ls, params.nhidden, random, null);
      i := i + 1;
    }
    ls := AppendLayer(ls, params.noutput, random, ls[params.nhiddenlayer]);
  }

  class NeuralNetwork {
    var layers: seq<Layer>
    var size: nat
    var score: real
    var fitness: real

    /** NeuralNetwork(params): the layers BuildLayers builds, with score and fitness unscored. */
    constructor (params: NeuralParameters, random: (real, real, nat) -> real)
      ensures size == |layers| == 2 + params.nhiddenlayer
      ensures forall k :: 0 <= k < |layers| ==>
                fresh(layers[k]) && layers[k].Valid() &&
                fresh(layers[k].neurons) && fresh(layers[k].bias) && fresh(layers[k].weights)
      ensures Separate(layers)
      ensures layers[0].Size() == params.ninput && layers[0].Unwired()
      ensures forall k :: 1 <= k <= params.nhiddenlayer ==> layers[k].Size() == params.nhidden && layers[k].Unwired()
      ensures layers[|layers| - 1].Size() == params.noutput
      ensures layers[|layers| - 1].Initialised(random, if params.nhiddenlayer == 0 then params.ninput else params.nhidden)
      ensures score == Unscored && fitness == Unscored
    {
      var built := BuildLayers(params, random);
      layers := built;
      size := 2 + params.nhiddenlayer;
      score, fitness := Unscored, Unscored;
    }
  }
}
