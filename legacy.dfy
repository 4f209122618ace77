/** The earlier engine of src/net.rs: the algorithm of src/dnn.rs over f64,
    which stores a bias output of 1 and applies the activation to it at every
    use. Its passes are the ones of `Dnn`, given that bias source. */
module LegacyNet {
  import opened Oracle
  import opened Dnn

  /** The bias output make_net stores (net.rs:23). */
  const StoredBias: real := 1.0

  /** The value a bias row feeds a pass of a network whose stored bias output
      is `stored` (net.rs:71, net.rs:106). */
  function BiasSource(act: real -> real, stored: real): real {
    act(stored)
  }

  /** The element-by-element copies of train_net (net.rs:89-93 and
      net.rs:120-123): every value, in order. */
  method CopyValues(v: seq<real>) returns (c: seq<real>)
    ensures c == v
  {
    c := [];
    for k := 0 to |v|
      invariant c == v[..k]
    {
      c := c + [v[k]];
    }
  }

  /** A network of src/net.rs (net.rs:8-15), updated in place like `Dnn.DNN`. */
  class Net {
    var weights: Tensor
    var weightsAdjustment: Tensor
    var nodeVals: seq<Layer>
    const biasOutput: real
    var learnRate: real
    const act: real -> real

    /** The network's fields as a value. */
    function State(): NetState
      reads this
    {
      NetState(weights, weightsAdjustment, nodeVals, biasOutput, learnRate)
    }

    ghost predicate Valid()
      reads this
    {
      ValidState(State())
    }

    /** make_net (net.rs:17-56): the shapes, draws and fresh nodes of
        `Dnn.DNN`'s constructor, with the stored bias output 1. An empty
        topology makes `len() - 1` underflow, hence the requires. */
    constructor (topology: seq<nat>, act: real -> real, rng: Rng)
      requires |topology| >= 1
      modifies rng
      ensures Valid()
      ensures weights == InitialWeights(topology, rng.draw, old(rng.pos))
      ensures weightsAdjustment == Zero(weights)
      ensures nodeVals == InitialNodes(topology, act)
      ensures biasOutput == StoredBias && learnRate == DefaultLearnRate && this.act == act
      ensures rng.pos == old(rng.pos) + WeightCount(topology)
    {
      ghost var start := rng.pos;
      var w, adj, nodes := NewNet(topology, act, rng);
      weights, weightsAdjustment, nodeVals := w, adj, nodes;
      biasOutput := StoredBias;
      learnRate := DefaultLearnRate;
      this.act := act;
      InitialShape(topology, act, rng.draw, start);
    }

    /** run_net (net.rs:58-84): the forward pass with bias source
        `act(biasOutput)`, then the outputs of the last layer. */
    method Run(inputs: seq<real>) returns (ret: seq<real>)
      requires Valid() && |inputs| <= |nodeVals[0]|
      modifies this
      ensures State() == AfterRun(old(State()), inputs, BiasSource(act, biasOutput), act)
      ensures Valid()
      ensures ret == Outputs(nodeVals[|nodeVals| - 1])
    {
      nodeVals := ForwardPass(weights, nodeVals, inputs, act(biasOutput), act);
      var last := nodeVals[|nodeVals| - 1];
      ret := [];
      for node := 0 to |last|
        invariant |ret| == node && forall k :: 0 <= k < node ==> ret[k] == last[k].output
      {
        ret := ret + [last[node].output];
      }
    }

    /** train_net (net.rs:86-125): a forward pass, a copy of `outputs`, then
        the backward pass with bias source `act(biasOutput)`. */
    method Train(inputs: seq<real>, outputs: seq<real>, execute: bool)
      requires Valid() && |inputs| <= |nodeVals[0]| && |nodeVals[|nodeVals| - 1]| <= |outputs|
      modifies this
      ensures State() == AfterTrain(old(State()), inputs, outputs, execute, BiasSource(act, biasOutput), act)
      ensures Valid()
    {
      var ignored := Run(inputs);
      var expected := CopyValues(outputs);
      var w, a := BackwardPass(weights, weightsAdjustment, nodeVals, expected, act(biasOutput), learnRate, act, execute);
      weights, weightsAdjustment := w, a;
    }
  }

  /** The two engines start out alike: from the same topology and stream they
      build the same tensors and nodes, and the bias value each feeds its
      passes is `act(1)`. Only the stored field differs. */
  lemma SameStart(topology: seq<nat>, act: real -> real, draw: nat -> real, start: nat)
    requires |topology| >= 1
    ensures var w := InitialWeights(topology, draw, start);
            var legacy := NetState(w, Zero(w), InitialNodes(topology, act), StoredBias, DefaultLearnRate);
            var dense := NetState(w, Zero(w), InitialNodes(topology, act), act(1.0), DefaultLearnRate);
            ValidState(legacy) && BiasSource(act, legacy.biasOutput) == dense.biasOutput &&
            legacy.(biasOutput := dense.biasOutput) == dense
  {
    InitialShape(topology, act, draw, start);
  }

  /** Over reals run_net of src/net.rs and of src/dnn.rs agree: a legacy
      network whose stored bias is 1 and a dense network with the same tensors
      and nodes end with the same tensors and nodes. */
  lemma RunAgrees(legacy: NetState, inputs: seq<real>, act: real -> real)
    requires ValidState(legacy) && |inputs| <= |legacy.nodes[0]| && legacy.biasOutput == StoredBias
    ensures var dense := legacy.(biasOutput := act(1.0));
            var l := AfterRun(legacy, inputs, BiasSource(act, legacy.biasOutput), act);
            var d := AfterRun(dense, inputs, dense.biasOutput, act);
            l.weights == d.weights && l.adjustment == d.adjustment && l.nodes == d.nodes &&
            Outputs(l.nodes[|l.nodes| - 1]) == Outputs(d.nodes[|d.nodes| - 1])
  {
  }

  /** Over reals train_net of src/net.rs and of src/dnn.rs agree in the same
      sense, for either value of `execute`. */
  lemma TrainAgrees(legacy: NetState, inputs: seq<real>, outputs: seq<real>, execute: bool, act: real -> real)
    requires ValidState(legacy) && |inputs| <= |legacy.nodes[0]| && |legacy.nodes[|legacy.nodes| - 1]| <= |outputs|
    requires legacy.biasOutput == StoredBias
    ensures var dense := legacy.(biasOutput := act(1.0));
            var l := AfterTrain(legacy, inputs, outputs, execute, BiasSource(act, legacy.biasOutput), act);
            var d := AfterTrain(dense, inputs, outputs, execute, dense.biasOutput, act);
            l.weights == d.weights && l.adjustment == d.adjustment && l.nodes == d.nodes
  {
  }
}
