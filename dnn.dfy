/** The dense network engine of src/dnn.rs: nested weight and pending-adjustment
    tensors, per-node working values, the forward pass and backpropagation with
    deferred (accumulate, then commit) weight updates. Arithmetic is over `real`;
    the activation is an arbitrary function `act` supplied at construction. */
module Dnn {
  import opened Oracle

  /** `m[i][o]`: the weight from input row `i` (the last row is the bias row) to output `o`. */
  type Matrix = seq<seq<real>>
  /** `t[l][i][o]`: one matrix per transition from layer `l` to layer `l + 1`. */
  type Tensor = seq<Matrix>

  /** `value` is the weighted sum a node last received, `output` its activation. */
  datatype Node = Node(value: real, output: real)
  type Layer = seq<Node>

  /** The whole state of a network, as a value. */
  datatype NetState = NetState(weights: Tensor, adjustment: Tensor, nodes: seq<Layer>,
                               biasOutput: real, learnRate: real)

  /** Every non-output layer has exactly one bias unit. */
  const BiasPerLayer: nat := 1
  const DefaultLearnRate: real := 0.1

  /** The derivative of the logistic activation, expressed through the activation itself. */
  function Deriv(act: real -> real, x: real): real {
    act(x) * (1.0 - act(x))
  }

  // ---------------------------------------------------------------------------
  // Shapes

  /** `w` has one matrix per transition of `nodes`, with a row per node of the
      lower layer plus the bias row, and a column per node of the upper layer. */
  ghost predicate Shaped(w: Tensor, nodes: seq<Layer>) {
    |nodes| == |w| + 1 &&
    forall k {:trigger w[k]} :: 0 <= k < |w| ==>
      |w[k]| == |nodes[k]| + BiasPerLayer &&
      forall i :: 0 <= i < |w[k]| ==> |w[k][i]| == |nodes[k + 1]|
  }

  ghost predicate SameShapeM(a: Matrix, b: Matrix) {
    |a| == |b| && forall i :: 0 <= i < |a| ==> |a[i]| == |b[i]|
  }

  ghost predicate SameShape(a: Tensor, b: Tensor) {
    |a| == |b| && forall k :: 0 <= k < |a| ==> SameShapeM(a[k], b[k])
  }

  ghost predicate ValidState(s: NetState) {
    Shaped(s.weights, s.nodes) && SameShape(s.adjustment, s.weights)
  }

  /** Every layer of `m` has the width of the same layer of `n`. */
  ghost predicate SameWidths(m: seq<Layer>, n: seq<Layer>) {
    |m| == |n| && forall l :: 0 <= l < |m| ==> |m[l]| == |n[l]|
  }

  // ---------------------------------------------------------------------------
  // Element-wise tensor algebra

  function AddM(a: Matrix, b: Matrix): (r: Matrix)
    requires SameShapeM(b, a)
    ensures SameShapeM(r, a)
  {
    seq(|a|, i requires 0 <= i < |a| =>
      seq(|a[i]|, o requires 0 <= o < |a[i]| => a[i][o] + b[i][o]))
  }

  function Add(a: Tensor, b: Tensor): (r: Tensor)
    requires SameShape(b, a)
    ensures SameShape(r, a)
  {
    seq(|a|, k requires 0 <= k < |a| => AddM(a[k], b[k]))
  }

  /** `n` zeros. */
  function Zeros(n: nat): (r: seq<real>)
    ensures |r| == n && forall o :: 0 <= o < n ==> r[o] == 0.0
  {
    seq(n, _ => 0.0)
  }

  function ZeroM(a: Matrix): (r: Matrix)
    ensures SameShapeM(r, a)
  {
    seq(|a|, i requires 0 <= i < |a| => Zeros(|a[i]|))
  }

  function Zero(a: Tensor): (r: Tensor)
    ensures SameShape(r, a)
  {
    seq(|a|, k requires 0 <= k < |a| => ZeroM(a[k]))
  }

  /** Every entry of `t` is exactly zero. */
  ghost predicate AllZero(t: Tensor) {
    forall k, i, o :: 0 <= k < |t| && 0 <= i < |t[k]| && 0 <= o < |t[k][i]| ==> t[k][i][o] == 0.0
  }

  // ---------------------------------------------------------------------------
  // Forward pass (run_net)

  /** What row `i` of a transition reads: a real node's output, or the bias output for the bias row. */
  function Source(prev: Layer, bias: real, i: nat): real {
    if i < |prev| then prev[i].output else bias
  }

  /** The weighted sum of the first `n` rows of `w` into output `o`. */
  function Dot(w: Matrix, prev: Layer, bias: real, o: nat, n: nat): real
    requires n <= |w| && forall i :: 0 <= i < |w| ==> o < |w[i]|
  {
    if n == 0 then 0.0 else Dot(w, prev, bias, o, n - 1) + w[n - 1][o] * Source(prev, bias, n - 1)
  }

  /** The layer of width `width` fed by `prev` through `w`. */
  function Feed(w: Matrix, prev: Layer, bias: real, act: real -> real, width: nat): (r: Layer)
    requires forall i :: 0 <= i < |w| ==> |w[i]| == width
  {
    seq(width, o requires 0 <= o < width =>
      Node(Dot(w, prev, bias, o, |w|), act(Dot(w, prev, bias, o, |w|))))
  }

  /** The input layer after `inputs` has been written over its first `|inputs|` nodes. */
  function InputLayer(first: Layer, inputs: seq<real>): (r: Layer)
    requires |inputs| <= |first|
  {
    seq(|first|, k requires 0 <= k < |first| =>
      if k < |inputs| then Node(inputs[k], inputs[k]) else first[k])
  }

  /** The first `k` layers after a forward pass. */
  function ForwardUpTo(w: Tensor, nodes: seq<Layer>, inputs: seq<real>, bias: real,
                       act: real -> real, k: nat): (r: seq<Layer>)
    requires Shaped(w, nodes) && |inputs| <= |nodes[0]| && 1 <= k <= |nodes|
    ensures |r| == k && forall l :: 0 <= l < k ==> |r[l]| == |nodes[l]|
    decreases k
  {
    if k == 1 then [InputLayer(nodes[0], inputs)]
    else
      var p := ForwardUpTo(w, nodes, inputs, bias, act, k - 1);
      p + [Feed(w[k - 2], p[k - 2], bias, act, |nodes[k - 1]|)]
  }

  /** All layers after a forward pass on `inputs`, reading bias row source `bias`. */
  function Forward(w: Tensor, nodes: seq<Layer>, inputs: seq<real>, bias: real,
                   act: real -> real): (r: seq<Layer>)
    requires Shaped(w, nodes) && |inputs| <= |nodes[0]|
    ensures SameWidths(r, nodes) && Shaped(w, r)
  {
    ForwardUpTo(w, nodes, inputs, bias, act, |nodes|)
  }

  /** The outputs of a layer, in order. */
  function Outputs(layer: Layer): (r: seq<real>)
  {
    seq(|layer|, k requires 0 <= k < |layer| => layer[k].output)
  }

  // ---------------------------------------------------------------------------
  // Backward pass (train_net)

  /** The sum over the first `m` outputs of `row[o] * err[o]`. */
  function BackSum(row: seq<real>, err: seq<real>, m: nat): real
    requires m <= |row| && m <= |err|
  {
    if m == 0 then 0.0 else BackSum(row, err, m - 1) + row[m - 1] * err[m - 1]
  }

  /** Raw error pushed back through the transposed matrix onto the `width` real
      nodes below it (the bias row is left out). */
  function BackProject(w: Matrix, err: seq<real>, width: nat): (r: seq<real>)
    requires width <= |w| && forall i :: 0 <= i < |w| ==> |w[i]| == |err|
  {
    seq(width, i requires 0 <= i < width => BackSum(w[i], err, |err|))
  }

  /** `expected[o] - output[o]` for every node of `layer`. */
  function Errors(expected: seq<real>, layer: Layer): (r: seq<real>)
    requires |layer| <= |expected|
  {
    seq(|layer|, o requires 0 <= o < |layer| => expected[o] - layer[o].output)
  }

  /** The expected values of layer `l` once `targets` has been projected down
      from the output layer: `targets` itself at the top, the back-projected
      error of the layer above everywhere else. */
  function Expected(w: Tensor, m: seq<Layer>, targets: seq<real>, l: nat): (r: seq<real>)
    requires Shaped(w, m) && l < |m| && |m[|m| - 1]| <= |targets|
    ensures |m[l]| <= |r|
    ensures l < |m| - 1 ==> |r| == |m[l]|
    decreases |m| - l
  {
    if l == |m| - 1 then targets
    else BackProject(w[l], Errors(Expected(w, m, targets, l + 1), m[l + 1]), |m[l]|)
  }

  /** The gradient of one node: the derivative at its value, times its raw
      error `expected - output`, times the learning rate. */
  function Gradient(act: real -> real, node: Node, expected: real, learnRate: real): real {
    Deriv(act, node.value) * (expected - node.output) * learnRate
  }

  /** The gradient of every node of `layer`. */
  function Gradients(act: real -> real, expected: seq<real>, layer: Layer, learnRate: real): (r: seq<real>)
    requires |layer| <= |expected|
  {
    seq(|layer|, o requires 0 <= o < |layer| => Gradient(act, layer[o], expected[o], learnRate))
  }

  /** One transition's contribution: `g[o] * source(i)` for every entry. */
  function LayerDelta(w: Matrix, g: seq<real>, prev: Layer, bias: real): (r: Matrix)
    requires forall i :: 0 <= i < |w| ==> |w[i]| <= |g|
  {
    seq(|w|, i requires 0 <= i < |w| =>
      seq(|w[i]|, o requires 0 <= o < |w[i]| => g[o] * Source(prev, bias, i)))
  }

  /** The gradient of transition `k` in a backward pass over the forward state `m`. */
  function LayerGradients(w: Tensor, m: seq<Layer>, targets: seq<real>, learnRate: real,
                          act: real -> real, k: nat): (r: seq<real>)
    requires Shaped(w, m) && |m[|m| - 1]| <= |targets| && k < |w|
    ensures |r| == |m[k + 1]|
  {
    Gradients(act, Expected(w, m, targets, k + 1), m[k + 1], learnRate)
  }

  /** Everything one backward pass adds to the pending adjustments. */
  function Delta(w: Tensor, m: seq<Layer>, targets: seq<real>, bias: real, learnRate: real,
                 act: real -> real): (r: Tensor)
    requires Shaped(w, m) && |m[|m| - 1]| <= |targets|
    ensures SameShape(r, w)
  {
    seq(|w|, k requires 0 <= k < |w| =>
      LayerDelta(w[k], LayerGradients(w, m, targets, learnRate, act, k), m[k], bias))
  }

  /** The state after `run_net(inputs)`: only the nodes change. */
  function AfterRun(s: NetState, inputs: seq<real>, bias: real, act: real -> real): (r: NetState)
    requires ValidState(s) && |inputs| <= |s.nodes[0]|
    ensures ValidState(r) && SameWidths(r.nodes, s.nodes)
    ensures r.weights == s.weights && r.adjustment == s.adjustment
    ensures r.biasOutput == s.biasOutput && r.learnRate == s.learnRate
  {
    s.(nodes := Forward(s.weights, s.nodes, inputs, bias, act))
  }

  /** The state after `train_net(inputs, targets, execute)`. */
  function AfterTrain(s: NetState, inputs: seq<real>, targets: seq<real>, execute: bool, bias: real,
                 act: real -> real): (r: NetState)
    requires ValidState(s) && |inputs| <= |s.nodes[0]| && |s.nodes[|s.nodes| - 1]| <= |targets|
    ensures ValidState(r) && SameWidths(r.nodes, s.nodes) && SameShape(r.weights, s.weights)
    ensures r.biasOutput == s.biasOutput && r.learnRate == s.learnRate
  {
    var m := Forward(s.weights, s.nodes, inputs, bias, act);
    var d := Delta(s.weights, m, targets, bias, s.learnRate, act);
    if execute then s.(weights := Add(s.weights, Add(s.adjustment, d)), adjustment := Zero(s.adjustment), nodes := m)
    else s.(adjustment := Add(s.adjustment, d), nodes := m)
  }

  // ---------------------------------------------------------------------------
  // The engine's loops, on the tensors as values

  /** The loops of run_net (dnn.rs:59-76): pass the inputs through to the input
      layer, then compute every node layer by layer. */
  method ForwardPass(w: Tensor, nodes: seq<Layer>, inputs: seq<real>, bias: real,
                     act: real -> real) returns (m: seq<Layer>)
    requires Shaped(w, nodes) && |inputs| <= |nodes[0]|
    ensures m == Forward(w, nodes, inputs, bias, act)
  {
    var first := nodes[0];
    for k := 0 to |inputs|
      invariant |first| == |nodes[0]|
      invariant forall j :: 0 <= j < |first| ==>
        first[j] == if j < k then Node(inputs[j], inputs[j]) else nodes[0][j]
    {
      first := first[k := Node(inputs[k], inputs[k])];
    }
    assert first == InputLayer(nodes[0], inputs);
    m := nodes[0 := first];
    assert m[..1] == ForwardUpTo(w, nodes, inputs, bias, act, 1);
    for layer := 1 to |m|
      invariant |m| == |nodes|
      invariant m[..layer] == ForwardUpTo(w, nodes, inputs, bias, act, layer)
      invariant forall l :: layer <= l < |m| ==> m[l] == nodes[l]
    {
      var cur := m[layer];
      ghost var target := Feed(w[layer - 1], m[layer - 1], bias, act, |nodes[layer]|);
      for o := 0 to |cur|
        invariant |cur| == |nodes[layer]|
        invariant forall j :: 0 <= j < o ==> cur[j] == target[j]
      {
        var sum := 0.0;
        for i := 0 to |w[layer - 1]|
          invariant sum == Dot(w[layer - 1], m[layer - 1], bias, o, i)
        {
          sum := sum + w[layer - 1][i][o] * if i < |m[layer - 1]| then m[layer - 1][i].output else bias;
        }
        cur := cur[o := Node(sum, act(sum))];
      }
      assert cur == target;
      m := m[layer := cur];
      assert m[..layer + 1] == m[..layer] + [cur];
    }
    assert m == m[..|m|];
  }

  /** `cur` holds `after` in every column before `o`, and in column `o` for the
      rows before `i`; everywhere else it still holds `before`. */
  ghost predicate Progress(cur: Matrix, before: Matrix, after: Matrix, o: nat, i: nat) {
    SameShapeM(cur, before) && SameShapeM(after, before) &&
    forall r, c :: 0 <= r < |cur| && 0 <= c < |cur[r]| ==>
      cur[r][c] == if c < o || (c == o && r < i) then after[r][c] else before[r][c]
  }

  lemma ProgressDone(cur: Matrix, before: Matrix, after: Matrix, o: nat)
    requires Progress(cur, before, after, o, 0)
    requires forall r :: 0 <= r < |before| ==> |before[r]| <= o
    ensures cur == after
  {
    forall r | 0 <= r < |cur| ensures cur[r] == after[r] {
      assert forall c :: 0 <= c < |cur[r]| ==> cur[r][c] == after[r][c];
    }
  }

  lemma ProgressStep(cur: Matrix, before: Matrix, after: Matrix, o: nat, i: nat, v: real)
    requires Progress(cur, before, after, o, i) && i < |cur| && o < |cur[i]| && v == after[i][o]
    ensures Progress(cur[i := cur[i][o := v]], before, after, o, i + 1)
  {
  }

  lemma ProgressKeep(cur: Matrix, before: Matrix, after: Matrix, o: nat, i: nat)
    requires Progress(cur, before, after, o, i) && i < |cur| && o < |cur[i]| && before[i][o] == after[i][o]
    ensures Progress(cur, before, after, o, i + 1)
  {
  }

  lemma ProgressColumn(cur: Matrix, before: Matrix, after: Matrix, o: nat)
    requires Progress(cur, before, after, o, |cur|)
    ensures Progress(cur, before, after, o + 1, 0)
  {
  }

  /** The new weights of one transition after a backward pass. */
  function LayerWeights(w: Matrix, a: Matrix, delta: Matrix, execute: bool): (r: Matrix)
    requires SameShapeM(a, w) && SameShapeM(delta, w)
  {
    if execute then AddM(w, AddM(a, delta)) else w
  }

  /** The new pending adjustments of one transition after a backward pass. */
  function LayerAdjustment(w: Matrix, a: Matrix, delta: Matrix, execute: bool): (r: Matrix)
    requires SameShapeM(a, w) && SameShapeM(delta, w)
  {
    if execute then ZeroM(a) else AddM(a, delta)
  }

  /** The inner loop of train_net (dnn.rs:98-113) for output `o` of one
      transition: for every row `i`, add `gradient * source(i)` to the
      adjustment, add `weight * error` to the projected error of real row `i`
      (reading the weight before it is updated) and, when `execute` holds, add
      the adjustment to the weight and zero it. The adjusted value is kept in
      `a` rather than written and read back, which changes nothing. `wl`, `al`
      are the transition as it was before the pass, `wNew`, `aNew` as it will be. */
  method TrainColumn(wc: Matrix, ac: Matrix, next: seq<real>, prev: Layer, o: nat, error: real,
                     gradient: real, bias: real, execute: bool,
                     ghost wl: Matrix, ghost al: Matrix, ghost wNew: Matrix, ghost aNew: Matrix,
                     ghost err: seq<real>)
    returns (wc': Matrix, ac': Matrix, next': seq<real>)
    requires Progress(wc, wl, wNew, o, 0) && Progress(ac, al, aNew, o, 0)
    requires |wl| == |prev| + BiasPerLayer && SameShapeM(al, wl) && o < |err| && err[o] == error
    requires forall i :: 0 <= i < |wl| ==> o < |wl[i]| && |wl[i]| <= |err|
    requires forall i :: 0 <= i < |wl| ==>
      wNew[i][o] == (if execute then wl[i][o] + (al[i][o] + gradient * Source(prev, bias, i)) else wl[i][o]) &&
      aNew[i][o] == (if execute then 0.0 else al[i][o] + gradient * Source(prev, bias, i))
    requires |next| == |prev| && forall r :: 0 <= r < |next| ==> next[r] == BackSum(wl[r], err, o)
    ensures Progress(wc', wl, wNew, o + 1, 0) && Progress(ac', al, aNew, o + 1, 0)
    ensures |next'| == |prev| && forall r :: 0 <= r < |next'| ==> next'[r] == BackSum(wl[r], err, o + 1)
  {
    wc', ac', next' := wc, ac, next;
    for i := 0 to |wc|
      invariant Progress(wc', wl, wNew, o, i)
      invariant Progress(ac', al, aNew, o, i)
      invariant |next'| == |prev|
      invariant forall r :: 0 <= r < |next'| ==> next'[r] == BackSum(wl[r], err, if r < i then o + 1 else o)
    {
      var a := ac'[i][o] + gradient * if i < |prev| then prev[i].output else bias;
      if i < |next'| {
        next' := next'[i := next'[i] + wc'[i][o] * error];
      }
      if execute {
        ProgressStep(wc', wl, wNew, o, i, wc'[i][o] + a);
        wc' := wc'[i := wc'[i][o := wc'[i][o] + a]];
        ProgressStep(ac', al, aNew, o, i, 0.0);
        ac' := ac'[i := ac'[i][o := 0.0]];
      } else {
        ProgressKeep(wc', wl, wNew, o, i);
        ProgressStep(ac', al, aNew, o, i, a);
        ac' := ac'[i := ac'[i][o := a]];
      }
    }
    ProgressColumn(wc', wl, wNew, o);
    ProgressColumn(ac', al, aNew, o);
  }

  /** Column `o` of one transition after a backward pass, entry by entry. */
  lemma ColumnEntries(wl: Matrix, al: Matrix, g: seq<real>, gradient: real, prev: Layer, bias: real,
                      execute: bool, o: nat)
    requires SameShapeM(al, wl) && o < |g| && gradient == g[o]
    requires forall i :: 0 <= i < |wl| ==> o < |wl[i]| <= |g|
    ensures var delta := LayerDelta(wl, g, prev, bias);
            forall i :: 0 <= i < |wl| ==>
              LayerWeights(wl, al, delta, execute)[i][o] ==
                (if execute then wl[i][o] + (al[i][o] + gradient * Source(prev, bias, i)) else wl[i][o]) &&
              LayerAdjustment(wl, al, delta, execute)[i][o] ==
                (if execute then 0.0 else al[i][o] + gradient * Source(prev, bias, i))
  {
    var delta := LayerDelta(wl, g, prev, bias);
    forall i | 0 <= i < |wl|
      ensures LayerWeights(wl, al, delta, execute)[i][o] ==
                (if execute then wl[i][o] + (al[i][o] + gradient * Source(prev, bias, i)) else wl[i][o])
      ensures LayerAdjustment(wl, al, delta, execute)[i][o] ==
                (if execute then 0.0 else al[i][o] + gradient * Source(prev, bias, i))
    {
      assert delta[i][o] == gradient * Source(prev, bias, i);
    }
  }

  /** The body of train_net's layer loop (dnn.rs:92-116) for one transition:
      `wl`/`al` are its weights and adjustments, `prev` the layer below, `cur`
      the layer above and `expected` what `cur` should have produced. For every
      output `o` it computes the raw error and the gradient and runs `TrainColumn`. */
  method TrainLayer(wl: Matrix, al: Matrix, prev: Layer, cur: Layer, expected: seq<real>,
                    bias: real, learnRate: real, act: real -> real, execute: bool)
    returns (wl': Matrix, al': Matrix, next: seq<real>)
    requires |wl| == |prev| + BiasPerLayer && |cur| <= |expected| && SameShapeM(al, wl)
    requires forall i :: 0 <= i < |wl| ==> |wl[i]| == |cur|
    ensures var err := Errors(expected, cur);
            var delta := LayerDelta(wl, Gradients(act, expected, cur, learnRate), prev, bias);
            wl' == LayerWeights(wl, al, delta, execute) &&
            al' == LayerAdjustment(wl, al, delta, execute) &&
            next == BackProject(wl, err, |prev|)
  {
    ghost var err := Errors(expected, cur);
    ghost var g := Gradients(act, expected, cur, learnRate);
    ghost var delta := LayerDelta(wl, g, prev, bias);
    ghost var wNew := LayerWeights(wl, al, delta, execute);
    ghost var aNew := LayerAdjustment(wl, al, delta, execute);
    wl', al' := wl, al;
    next := seq(|prev|, _ => 0.0);
    for o := 0 to |cur|
      invariant Progress(wl', wl, wNew, o, 0)
      invariant Progress(al', al, aNew, o, 0)
      invariant |next| == |prev|
      invariant forall r :: 0 <= r < |next| ==> next[r] == BackSum(wl[r], err, o)
    {
      var error := expected[o] - cur[o].output;
      var gradient := Gradient(act, cur[o], expected[o], learnRate);
      assert error == err[o] && gradient == g[o];
      ColumnEntries(wl, al, g, gradient, prev, bias, execute, o);
      wl', al', next := TrainColumn(wl', al', next, prev, o, error, gradient, bias, execute, wl, al, wNew, aNew, err);
    }
    ProgressDone(wl', wl, wNew, |cur|);
    ProgressDone(al', al, aNew, |cur|);
  }

  /** Transition `k` of the pass's contribution is what `TrainLayer` computes
      from the expected values projected down to layer `k + 1`. */
  lemma DeltaLayer(w: Tensor, m: seq<Layer>, targets: seq<real>, bias: real,
                   learnRate: real, act: real -> real, k: nat)
    requires Shaped(w, m) && |m[|m| - 1]| <= |targets| && k < |w|
    ensures Delta(w, m, targets, bias, learnRate, act)[k]
            == LayerDelta(w[k], Gradients(act, Expected(w, m, targets, k + 1), m[k + 1], learnRate), m[k], bias)
  {
  }

  /** Assembling the transitions of a backward pass into whole tensors. */
  lemma PassAssemble(w: Tensor, adj: Tensor, d: Tensor, w': Tensor, adj': Tensor, execute: bool)
    requires SameShape(adj, w) && SameShape(d, w) && |w'| == |w| && |adj'| == |w|
    requires forall k :: 0 <= k < |w| ==> w'[k] == LayerWeights(w[k], adj[k], d[k], execute)
    requires forall k :: 0 <= k < |w| ==> adj'[k] == LayerAdjustment(w[k], adj[k], d[k], execute)
    ensures w' == if execute then Add(w, Add(adj, d)) else w
    ensures adj' == if execute then Zero(adj) else Add(adj, d)
  {
    if execute {
      assert forall k :: 0 <= k < |w| ==> Add(w, Add(adj, d))[k] == AddM(w[k], AddM(adj[k], d[k]));
    } else {
      assert forall k :: 0 <= k < |w| ==> Add(adj, d)[k] == AddM(adj[k], d[k]);
    }
  }

  /** The loops of train_net after its forward pass (dnn.rs:89-117): from the
      output layer down, one `TrainLayer` per transition, each layer's projected
      error becoming the expected values of the layer below. */
  method BackwardPass(w: Tensor, adj: Tensor, m: seq<Layer>, targets: seq<real>, bias: real,
                      learnRate: real, act: real -> real, execute: bool)
    returns (w': Tensor, adj': Tensor)
    requires Shaped(w, m) && SameShape(adj, w) && |m[|m| - 1]| <= |targets|
    ensures w' == if execute then Add(w, Add(adj, Delta(w, m, targets, bias, learnRate, act))) else w
    ensures adj' == if execute then Zero(adj) else Add(adj, Delta(w, m, targets, bias, learnRate, act))
  {
    ghost var d := Delta(w, m, targets, bias, learnRate, act);
    w', adj' := w, adj;
    var expected := targets;
    var layer := |m| - 1;
    while layer > 0
      invariant 0 <= layer < |m|
      invariant expected == Expected(w, m, targets, layer)
      invariant |w'| == |w| && |adj'| == |w|
      invariant forall k :: 0 <= k < |w| ==>
        w'[k] == if k < layer then w[k] else LayerWeights(w[k], adj[k], d[k], execute)
      invariant forall k :: 0 <= k < |w| ==>
        adj'[k] == if k < layer then adj[k] else LayerAdjustment(w[k], adj[k], d[k], execute)
    {
      var k := layer - 1;
      var wk, ak := w'[k], adj'[k];
      assert wk == w[k] && ak == adj[k];
      var wl, al, next := TrainLayer(wk, ak, m[k], m[layer], expected, bias, learnRate, act, execute);
      DeltaLayer(w, m, targets, bias, learnRate, act, k);
      w', adj' := w'[k := wl], adj'[k := al];
      expected := next;
      layer := k;
    }
    PassAssemble(w, adj, d, w', adj', execute);
  }

  // ---------------------------------------------------------------------------
  // What the forward pass computes

  lemma {:induction false} ForwardUpToPrefix(w: Tensor, nodes: seq<Layer>, inputs: seq<real>, bias: real,
                                             act: real -> real, k: nat, j: nat)
    requires Shaped(w, nodes) && |inputs| <= |nodes[0]| && 1 <= j <= k <= |nodes|
    ensures ForwardUpTo(w, nodes, inputs, bias, act, k)[..j] == ForwardUpTo(w, nodes, inputs, bias, act, j)
    decreases k
  {
    if k > j {
      ForwardUpToPrefix(w, nodes, inputs, bias, act, k - 1, j);
      var p := ForwardUpTo(w, nodes, inputs, bias, act, k - 1);
      assert ForwardUpTo(w, nodes, inputs, bias, act, k)[..j] == p[..j];
    }
  }

  /** The input layer takes `inputs[k]` as value and output of node `k` for
      every `k < |inputs|` and keeps every other input node as it was. */
  lemma ForwardInputLayer(w: Tensor, nodes: seq<Layer>, inputs: seq<real>, bias: real,
                          act: real -> real, k: nat)
    requires Shaped(w, nodes) && |inputs| <= |nodes[0]| && k < |nodes[0]|
    ensures var r := Forward(w, nodes, inputs, bias, act);
            r[0][k] == if k < |inputs| then Node(inputs[k], inputs[k]) else nodes[0][k]
  {
    ForwardUpToPrefix(w, nodes, inputs, bias, act, |nodes|, 1);
  }

  /** Every node above the input layer holds, as value, the weighted sum of the
      new outputs of the layer below plus the bias row's weight times `bias`,
      and, as output, the activation of that value. */
  lemma ForwardHiddenLayer(w: Tensor, nodes: seq<Layer>, inputs: seq<real>, bias: real,
                           act: real -> real, l: nat, o: nat)
    requires Shaped(w, nodes) && |inputs| <= |nodes[0]| && 1 <= l < |nodes| && o < |nodes[l]|
    ensures var r := Forward(w, nodes, inputs, bias, act);
            r[l][o].value == Dot(w[l - 1], r[l - 1], bias, o, |r[l - 1]|) + w[l - 1][|r[l - 1]|][o] * bias &&
            r[l][o].output == act(r[l][o].value)
  {
    var r := Forward(w, nodes, inputs, bias, act);
    var q := ForwardUpTo(w, nodes, inputs, bias, act, l);
    var f := ForwardUpTo(w, nodes, inputs, bias, act, l + 1);
    var p := q[l - 1];
    var layer := Feed(w[l - 1], p, bias, act, |nodes[l]|);
    assert f == q + [layer];
    ForwardUpToPrefix(w, nodes, inputs, bias, act, |nodes|, l + 1);
    assert r[..l + 1] == f;
    assert r[l] == f[l] == layer;
    assert r[l - 1] == f[l - 1] == p;
    assert |w[l - 1]| == |p| + 1;
    var d := Dot(w[l - 1], p, bias, o, |w[l - 1]|);
    assert r[l][o] == layer[o] == Node(d, act(d));
    DotBiasRow(w[l - 1], p, bias, o);
  }

  /** The last row of a transition is the bias row: it reads `bias`. */
  lemma DotBiasRow(w: Matrix, prev: Layer, bias: real, o: nat)
    requires |w| == |prev| + 1 && forall i :: 0 <= i < |w| ==> o < |w[i]|
    ensures Dot(w, prev, bias, o, |w|) == Dot(w, prev, bias, o, |prev|) + w[|prev|][o] * bias
  {
  }

  /** The real rows of a weighted sum read only the outputs of the layer
      below, never the bias output: over the first `n <= |prev|` rows `Dot` is
      the same whatever `bias` is. */
  lemma {:induction false} DotRealRows(w: Matrix, prev: Layer, bias: real, bias': real, o: nat, n: nat)
    requires n <= |w| && n <= |prev| && forall i :: 0 <= i < |w| ==> o < |w[i]|
    ensures Dot(w, prev, bias, o, n) == Dot(w, prev, bias', o, n)
  {
    if n > 0 {
      DotRealRows(w, prev, bias, bias', o, n - 1);
    }
  }

  lemma {:induction false} ForwardUpToAgree(w: Tensor, n1: seq<Layer>, n2: seq<Layer>, inputs: seq<real>,
                                            bias: real, act: real -> real, k: nat)
    requires Shaped(w, n1) && Shaped(w, n2) && SameWidths(n1, n2) && |inputs| <= |n1[0]|
    requires InputLayer(n1[0], inputs) == InputLayer(n2[0], inputs)
    requires 1 <= k <= |n1|
    ensures ForwardUpTo(w, n1, inputs, bias, act, k) == ForwardUpTo(w, n2, inputs, bias, act, k)
    decreases k
  {
    if k > 1 {
      ForwardUpToAgree(w, n1, n2, inputs, bias, act, k - 1);
    }
  }

  /** Running the same input twice gives the same nodes as running it once:
      the forward pass depends only on the weights and the input layer after
      the inputs were written. */
  lemma ForwardIdempotent(w: Tensor, nodes: seq<Layer>, inputs: seq<real>, bias: real, act: real -> real)
    requires Shaped(w, nodes) && |inputs| <= |nodes[0]|
    ensures var r := Forward(w, nodes, inputs, bias, act);
            Forward(w, r, inputs, bias, act) == r
  {
    var r := Forward(w, nodes, inputs, bias, act);
    ForwardUpToPrefix(w, nodes, inputs, bias, act, |nodes|, 1);
    assert InputLayer(r[0], inputs) == InputLayer(nodes[0], inputs);
    ForwardUpToAgree(w, r, nodes, inputs, bias, act, |nodes|);
  }

  // ---------------------------------------------------------------------------
  // What a backward pass does to the tensors

  /** One entry of a backward pass's contribution: the gradient of output `o`
      times what row `i` reads. */
  lemma DeltaEntry(w: Tensor, m: seq<Layer>, targets: seq<real>, bias: real, learnRate: real,
                   act: real -> real, k: nat, i: nat, o: nat)
    requires Shaped(w, m) && |m[|m| - 1]| <= |targets|
    requires k < |w| && i < |w[k]| && o < |w[k][i]|
    ensures Delta(w, m, targets, bias, learnRate, act)[k][i][o]
         == Gradient(act, m[k + 1][o], Expected(w, m, targets, k + 1)[o], learnRate) * Source(m[k], bias, i)
  {
    var g := LayerGradients(w, m, targets, learnRate, act, k);
    var e := Expected(w, m, targets, k + 1);
    assert g[o] == Gradient(act, m[k + 1][o], e[o], learnRate);
    var ld := LayerDelta(w[k], g, m[k], bias);
    assert ld[i][o] == g[o] * Source(m[k], bias, i);
    assert Delta(w, m, targets, bias, learnRate, act)[k] == ld;
  }

  lemma AddEntry(a: Tensor, b: Tensor, k: nat, i: nat, o: nat)
    requires SameShape(b, a) && k < |a| && i < |a[k]| && o < |a[k][i]|
    ensures Add(a, b)[k][i][o] == a[k][i][o] + b[k][i][o]
  {
    assert Add(a, b)[k] == AddM(a[k], b[k]);
  }

  lemma ZeroAll(a: Tensor)
    ensures AllZero(Zero(a))
  {
    forall k, i, o | 0 <= k < |a| && 0 <= i < |Zero(a)[k]| && 0 <= o < |Zero(a)[k][i]|
      ensures Zero(a)[k][i][o] == 0.0
    {
      assert Zero(a)[k] == ZeroM(a[k]);
    }
  }

  /** `Zero` depends only on the shape of its argument. */
  lemma ZeroShape(a: Tensor, b: Tensor)
    requires SameShape(a, b)
    ensures Zero(a) == Zero(b)
  {
    forall k | 0 <= k < |a|
      ensures Zero(a)[k] == Zero(b)[k]
    {
      assert Zero(a)[k] == ZeroM(a[k]) && Zero(b)[k] == ZeroM(b[k]);
      assert forall i :: 0 <= i < |a[k]| ==> ZeroM(a[k])[i] == Zeros(|a[k][i]|) == ZeroM(b[k])[i];
    }
  }

  /** Without commit the weights stay as they were and each pending entry
      grows by this call's contribution (`DeltaEntry`). */
  lemma TrainAccumulates(s: NetState, inputs: seq<real>, targets: seq<real>, bias: real,
                         act: real -> real, k: nat, i: nat, o: nat)
    requires ValidState(s) && |inputs| <= |s.nodes[0]| && |s.nodes[|s.nodes| - 1]| <= |targets|
    requires k < |s.weights| && i < |s.weights[k]| && o < |s.weights[k][i]|
    ensures var r := AfterTrain(s, inputs, targets, false, bias, act);
            var m := Forward(s.weights, s.nodes, inputs, bias, act);
            r.weights == s.weights &&
            r.adjustment[k][i][o] == s.adjustment[k][i][o] + Delta(s.weights, m, targets, bias, s.learnRate, act)[k][i][o]
  {
    var m := Forward(s.weights, s.nodes, inputs, bias, act);
    var d := Delta(s.weights, m, targets, bias, s.learnRate, act);
    AddEntry(s.adjustment, d, k, i, o);
  }

  /** With commit every pending entry ends exactly 0, and each weight gains its
      old pending value plus this call's contribution (`DeltaEntry`). */
  lemma TrainCommits(s: NetState, inputs: seq<real>, targets: seq<real>, bias: real,
                     act: real -> real, k: nat, i: nat, o: nat)
    requires ValidState(s) && |inputs| <= |s.nodes[0]| && |s.nodes[|s.nodes| - 1]| <= |targets|
    requires k < |s.weights| && i < |s.weights[k]| && o < |s.weights[k][i]|
    ensures var r := AfterTrain(s, inputs, targets, true, bias, act);
            var m := Forward(s.weights, s.nodes, inputs, bias, act);
            AllZero(r.adjustment) &&
            r.weights[k][i][o] == s.weights[k][i][o]
              + (s.adjustment[k][i][o] + Delta(s.weights, m, targets, bias, s.learnRate, act)[k][i][o])
  {
    var m := Forward(s.weights, s.nodes, inputs, bias, act);
    var d := Delta(s.weights, m, targets, bias, s.learnRate, act);
    AddEntry(s.adjustment, d, k, i, o);
    AddEntry(s.weights, Add(s.adjustment, d), k, i, o);
    ZeroAll(s.adjustment);
  }

  // ---------------------------------------------------------------------------
  // Construction (new)

  /** The number of entries of a `rows` x `cols` matrix, counted row by row
      (`Cells(rows, cols) == rows * cols`, by `CellsProduct`). */
  function Cells(rows: nat, cols: nat): nat
    decreases rows
  {
    if rows == 0 then 0 else Cells(rows - 1, cols) + cols
  }

  lemma {:induction false} CellsProduct(rows: nat, cols: nat)
    ensures Cells(rows, cols) == rows * cols
    decreases rows
  {
    if rows > 0 {
      CellsProduct(rows - 1, cols);
      assert (rows - 1) * cols + cols == rows * cols;
    }
  }

  /** How many weights the first `k` transitions of `topology` hold. */
  function WeightsUpTo(topology: seq<nat>, k: nat): nat
    requires k < |topology|
  {
    if k == 0 then 0
    else WeightsUpTo(topology, k - 1) + Cells(topology[k - 1] + BiasPerLayer, topology[k])
  }

  /** How many generator draws `new` takes: one per weight. */
  function WeightCount(topology: seq<nat>): nat
    requires |topology| >= 1
  {
    WeightsUpTo(topology, |topology| - 1)
  }

  /** A row of `n` fresh weights, each `2 * r - 1` for the draws from `base` on. */
  function InitialRow(draw: nat -> real, base: nat, n: nat): (r: seq<real>)
    ensures |r| == n
  {
    seq(n, o requires 0 <= o < n => 2.0 * draw(base + o) - 1.0)
  }

  /** The first `n` rows of a transition filled row after row from the draws
      from `base` on: row `i` starts at draw `base + Cells(i, cols)`. */
  function InitialMatrix(draw: nat -> real, base: nat, n: nat, cols: nat): (r: Matrix)
    ensures |r| == n && forall i :: 0 <= i < n ==> |r[i]| == cols
  {
    if n == 0 then []
    else InitialMatrix(draw, base, n - 1, cols) + [InitialRow(draw, base + Cells(n - 1, cols), cols)]
  }

  /** The first `k` transitions as `new` draws them from stream position
      `start`: transition after transition, row after row, column after
      column. Each has a row per node of its lower layer plus the bias row, and
      a column per node of its upper layer. */
  function InitialUpTo(topology: seq<nat>, draw: nat -> real, start: nat, k: nat): (r: Tensor)
    requires k < |topology|
    ensures |r| == k
  {
    if k == 0 then []
    else
      InitialUpTo(topology, draw, start, k - 1) +
      [InitialMatrix(draw, start + WeightsUpTo(topology, k - 1), topology[k - 1] + BiasPerLayer, topology[k])]
  }

  /** Each transition of `InitialUpTo` has a row per node of its lower layer
      plus the bias row, and a column per node of its upper layer. */
  lemma {:induction false} InitialUpToShape(topology: seq<nat>, draw: nat -> real, start: nat, k: nat)
    requires k < |topology|
    ensures var r := InitialUpTo(topology, draw, start, k);
            forall l :: 0 <= l < k ==>
              |r[l]| == topology[l] + BiasPerLayer &&
              (forall i :: 0 <= i < |r[l]| ==> |r[l][i]| == topology[l + 1])
  {
    if k > 0 {
      InitialUpToShape(topology, draw, start, k - 1);
      var r := InitialUpTo(topology, draw, start, k);
      assert forall l :: 0 <= l < k - 1 ==> r[l] == InitialUpTo(topology, draw, start, k - 1)[l];
    }
  }

  /** All the weights `new` draws from stream position `start`. */
  function InitialWeights(topology: seq<nat>, draw: nat -> real, start: nat): (r: Tensor)
    requires |topology| >= 1
    ensures |r| == |topology| - 1
    ensures forall l :: 0 <= l < |r| ==>
              |r[l]| == topology[l] + BiasPerLayer &&
              (forall i :: 0 <= i < |r[l]| ==> |r[l][i]| == topology[l + 1])
  {
    InitialUpToShape(topology, draw, start, |topology| - 1);
    InitialUpTo(topology, draw, start, |topology| - 1)
  }

  /** The node a fresh network holds: value 0 and its activation as output. */
  function InitialNode(act: real -> real): Node {
    Node(0.0, act(0.0))
  }

  /** A layer of `n` fresh nodes. */
  function InitialLayer(n: nat, act: real -> real): (r: Layer)
    ensures |r| == n && forall k :: 0 <= k < n ==> r[k] == InitialNode(act)
  {
    seq(n, _ => InitialNode(act))
  }

  /** One layer of fresh nodes per topology entry, of the entry's width. */
  function InitialNodes(topology: seq<nat>, act: real -> real): (r: seq<Layer>)
    ensures |r| == |topology| && forall l :: 0 <= l < |r| ==> |r[l]| == topology[l]
  {
    seq(|topology|, l requires 0 <= l < |topology| => InitialLayer(topology[l], act))
  }

  /** One row of new's inner loop (dnn.rs:40-42): each weight is `r * 2 - 1`
      for the next draw `r`. */
  method NewRow(cols: nat, rng: Rng) returns (row: seq<real>)
    modifies rng
    ensures row == InitialRow(rng.draw, old(rng.pos), cols)
    ensures rng.pos == old(rng.pos) + cols
  {
    row := Zeros(cols);
    for output := 0 to cols
      invariant |row| == cols
      invariant rng.pos == old(rng.pos) + output
      invariant forall o :: 0 <= o < output ==> row[o] == 2.0 * rng.draw(old(rng.pos) + o) - 1.0
    {
      var r := rng.Next();
      row := row[output := r * 2.0 - 1.0];
    }
  }

  /** One transition of new's loops (dnn.rs:28-44): `rows` rows of fresh weights
      and zero adjustments, and a fresh node for every real row. */
  method NewMatrix(rows: nat, cols: nat, width: nat, act: real -> real, rng: Rng)
    returns (mat: Matrix, zeros: Matrix, layerNodes: Layer)
    requires width < rows
    modifies rng
    ensures mat == InitialMatrix(rng.draw, old(rng.pos), rows, cols)
    ensures zeros == ZeroM(mat)
    ensures layerNodes == InitialLayer(width, act)
    ensures rng.pos == old(rng.pos) + Cells(rows, cols)
  {
    ghost var base := rng.pos;
    mat, zeros, layerNodes := [], [], [];
    for input := 0 to rows
      invariant rng.pos == base + Cells(input, cols)
      invariant mat == InitialMatrix(rng.draw, base, input, cols)
      invariant |zeros| == input && forall i :: 0 <= i < input ==> zeros[i] == Zeros(cols)
      invariant layerNodes == InitialLayer(if input < width then input else width, act)
    {
      zeros := zeros + [Zeros(cols)];
      if input < width {
        layerNodes := layerNodes + [InitialNode(act)];
      }
      var row := NewRow(cols, rng);
      mat := mat + [row];
    }
  }

  /** The output layer's loop of new (dnn.rs:48-53): `n` fresh nodes. */
  method NewLayer(n: nat, act: real -> real) returns (layer: Layer)
    ensures layer == InitialLayer(n, act)
  {
    layer := [];
    for output := 0 to n
      invariant layer == InitialLayer(output, act)
    {
      layer := layer + [InitialNode(act)];
    }
  }

  /** `InitialUpTo` and `WeightsUpTo` grow by transition `k`. */
  lemma InitialUpToStep(topology: seq<nat>, draw: nat -> real, start: nat, k: nat)
    requires k + 1 < |topology|
    ensures var rows, cols := topology[k] + BiasPerLayer, topology[k + 1];
            InitialUpTo(topology, draw, start, k + 1) ==
              InitialUpTo(topology, draw, start, k) + [InitialMatrix(draw, start + WeightsUpTo(topology, k), rows, cols)] &&
            WeightsUpTo(topology, k + 1) == WeightsUpTo(topology, k) + Cells(rows, cols)
  {
  }

  /** `Zero` of a tensor grown by one matrix. */
  lemma ZeroSnoc(w: Tensor, m: Matrix)
    ensures Zero(w + [m]) == Zero(w) + [ZeroM(m)]
  {
    assert forall k :: 0 <= k < |w| ==> (w + [m])[k] == w[k];
  }

  /** `InitialNodes` of a topology prefix grown by one entry. */
  lemma NodesSnoc(topology: seq<nat>, k: nat, act: real -> real)
    requires k < |topology|
    ensures InitialNodes(topology[..k + 1], act) == InitialNodes(topology[..k], act) + [InitialLayer(topology[k], act)]
  {
    assert forall l :: 0 <= l < k ==> topology[..k + 1][l] == topology[..k][l];
  }

  /** The loops of new (dnn.rs:18-53): one `NewMatrix` per transition, then
      the output layer's nodes. */
  method NewNet(topology: seq<nat>, act: real -> real, rng: Rng)
    returns (w: Tensor, adj: Tensor, nodes: seq<Layer>)
    requires |topology| >= 1
    modifies rng
    ensures w == InitialWeights(topology, rng.draw, old(rng.pos))
    ensures adj == Zero(w)
    ensures nodes == InitialNodes(topology, act)
    ensures rng.pos == old(rng.pos) + WeightCount(topology)
  {
    ghost var start := rng.pos;
    w, adj, nodes := [], [], [];
    for layer := 0 to |topology| - 1
      invariant rng.pos == start + WeightsUpTo(topology, layer)
      invariant w == InitialUpTo(topology, rng.draw, start, layer)
      invariant adj == Zero(w)
      invariant nodes == InitialNodes(topology[..layer], act)
    {
      InitialUpToStep(topology, rng.draw, start, layer);
      ZeroSnoc(w, InitialMatrix(rng.draw, rng.pos, topology[layer] + BiasPerLayer, topology[layer + 1]));
      NodesSnoc(topology, layer, act);
      var mat, zeros, layerNodes := NewMatrix(topology[layer] + BiasPerLayer, topology[layer + 1], topology[layer], act, rng);
      w, adj, nodes := w + [mat], adj + [zeros], nodes + [layerNodes];
    }
    var last := NewLayer(topology[|topology| - 1], act);
    NodesSnoc(topology, |topology| - 1, act);
    assert topology[..|topology|] == topology;
    nodes := nodes + [last];
  }

  /** A fresh network is well formed, and so is its zero adjustment tensor. */
  lemma InitialShape(topology: seq<nat>, act: real -> real, draw: nat -> real, start: nat)
    requires |topology| >= 1
    ensures var w := InitialWeights(topology, draw, start);
            ValidState(NetState(w, Zero(w), InitialNodes(topology, act), act(1.0), DefaultLearnRate))
  {
    var w := InitialWeights(topology, draw, start);
    var nodes := InitialNodes(topology, act);
    assert |nodes| == |w| + 1;
    forall k | 0 <= k < |w|
      ensures |w[k]| == |nodes[k]| + BiasPerLayer && forall i :: 0 <= i < |w[k]| ==> |w[k][i]| == |nodes[k + 1]|
    {
    }
  }

  /** Weights drawn from values in [0, 1) lie in [-1, 1). */
  lemma {:induction false} InitialMatrixRange(draw: nat -> real, base: nat, n: nat, cols: nat, i: nat, o: nat)
    requires (forall k: nat :: 0.0 <= draw(k) < 1.0) && i < n && o < cols
    ensures -1.0 <= InitialMatrix(draw, base, n, cols)[i][o] < 1.0
  {
    if i == n - 1 {
      assert InitialMatrix(draw, base, n, cols)[i] == InitialRow(draw, base + Cells(n - 1, cols), cols);
      assert 0.0 <= draw(base + Cells(n - 1, cols) + o) < 1.0;
    } else {
      InitialMatrixRange(draw, base, n - 1, cols, i, o);
      assert InitialMatrix(draw, base, n, cols)[i] == InitialMatrix(draw, base, n - 1, cols)[i];
    }
  }

  lemma {:induction false} InitialUpToRange(topology: seq<nat>, draw: nat -> real, start: nat, k: nat,
                                            l: nat, i: nat, o: nat)
    requires (forall n: nat :: 0.0 <= draw(n) < 1.0) && k < |topology|
    requires var r := InitialUpTo(topology, draw, start, k); l < |r| && i < |r[l]| && o < |r[l][i]|
    ensures -1.0 <= InitialUpTo(topology, draw, start, k)[l][i][o] < 1.0
  {
    var r := InitialUpTo(topology, draw, start, k);
    if l == k - 1 {
      InitialMatrixRange(draw, start + WeightsUpTo(topology, k - 1), topology[k - 1] + BiasPerLayer, topology[k], i, o);
    } else {
      InitialUpToRange(topology, draw, start, k - 1, l, i, o);
      assert r[l] == InitialUpTo(topology, draw, start, k - 1)[l];
    }
  }

  /** Every fresh adjustment is 0, and every fresh weight lies in [-1, 1) when
      every draw lies in [0, 1). */
  lemma InitialValues(topology: seq<nat>, draw: nat -> real, start: nat)
    requires |topology| >= 1 && forall k: nat :: 0.0 <= draw(k) < 1.0
    ensures var w := InitialWeights(topology, draw, start);
            AllZero(Zero(w)) &&
            forall l, i, o :: 0 <= l < |w| && 0 <= i < |w[l]| && 0 <= o < |w[l][i]| ==> -1.0 <= w[l][i][o] < 1.0
  {
    var w := InitialWeights(topology, draw, start);
    ZeroAll(w);
    forall l, i, o | 0 <= l < |w| && 0 <= i < |w[l]| && 0 <= o < |w[l][i]|
      ensures -1.0 <= w[l][i][o] < 1.0
    {
      InitialUpToRange(topology, draw, start, |topology| - 1, l, i, o);
    }
  }
  // ---------------------------------------------------------------------------
  // The network object

  /** A network of src/dnn.rs (dnn.rs:8-15). Its tensors and nodes are updated
      in place by `Run` and `Train`; `act` is the activation it applies. */
  class DNN {
    var weights: Tensor
    var weightsAdjustment: Tensor
    var nodeVals: seq<Layer>
    const biasOutput: real
    var learnRate: real
    const act: real -> real

    /** The network's fields as a value. */
    function State(): NetState
      reads this
    {
      NetState(weights, weightsAdjustment, nodeVals, biasOutput, learnRate)
    }

    ghost predicate Valid()
      reads this
    {
      ValidState(State())
    }

    /** new (dnn.rs:18-56): the shapes of `topology`, weights drawn from `rng`,
        zero adjustments, fresh nodes, bias output `act(1)` and learning rate
        0.1. An empty topology makes `len() - 1` underflow, hence the requires. */
    constructor (topology: seq<nat>, act: real -> real, rng: Rng)
      requires |topology| >= 1
      modifies rng
      ensures Valid()
      ensures weights == InitialWeights(topology, rng.draw, old(rng.pos))
      ensures weightsAdjustment == Zero(weights)
      ensures nodeVals == InitialNodes(topology, act)
      ensures biasOutput == act(1.0) && learnRate == DefaultLearnRate && this.act == act
      ensures rng.pos == old(rng.pos) + WeightCount(topology)
    {
      ghost var start := rng.pos;
      var w, adj, nodes := NewNet(topology, act, rng);
      weights, weightsAdjustment, nodeVals := w, adj, nodes;
      biasOutput := act(1.0);
      learnRate := DefaultLearnRate;
      this.act := act;
      InitialShape(topology, act, rng.draw, start);
    }

    /** run_net (dnn.rs:58-84): the forward pass, then the outputs of the last layer. */
    method Run(inputs: seq<real>) returns (ret: seq<real>)
      requires Valid() && |inputs| <= |nodeVals[0]|
      modifies this
      ensures State() == AfterRun(old(State()), inputs, biasOutput, act)
      ensures Valid()
      ensures ret == Outputs(nodeVals[|nodeVals| - 1])
    {
      nodeVals := ForwardPass(weights, nodeVals, inputs, biasOutput, act);
      var last := nodeVals[|nodeVals| - 1];
      ret := [];
      for node := 0 to |last|
        invariant |ret| == node && forall k :: 0 <= k < node ==> ret[k] == last[k].output
      {
        ret := ret + [last[node].output];
      }
    }

    /** train_net (dnn.rs:86-119): a forward pass on `inputs`, then the backward
        pass against `outputs`, committing when `execute` holds. */
    method Train(inputs: seq<real>, outputs: seq<real>, execute: bool)
      requires Valid() && |inputs| <= |nodeVals[0]| && |nodeVals[|nodeVals| - 1]| <= |outputs|
      modifies this
      ensures State() == AfterTrain(old(State()), inputs, outputs, execute, biasOutput, act)
      ensures Valid()
    {
      var ignored := Run(inputs);
      var w, a := BackwardPass(weights, weightsAdjustment, nodeVals, outputs, biasOutput, learnRate, act, execute);
      weights, weightsAdjustment := w, a;
    }
  }

  /** The outputs `run_net` returns are the activations of the last layer: one per node. */
  lemma RunReturns(s: NetState, inputs: seq<real>, bias: real, act: real -> real)
    requires ValidState(s) && |inputs| <= |s.nodes[0]| && |s.nodes| >= 2
    ensures var r := AfterRun(s, inputs, bias, act);
            var out := Outputs(r.nodes[|r.nodes| - 1]);
            |out| == |s.nodes[|s.nodes| - 1]| &&
            forall o :: 0 <= o < |out| ==> out[o] == act(r.nodes[|r.nodes| - 1][o].value)
  {
    var r := AfterRun(s, inputs, bias, act);
    var l := |s.nodes| - 1;
    forall o | 0 <= o < |s.nodes[l]|
      ensures r.nodes[l][o].output == act(r.nodes[l][o].value)
    {
      ForwardHiddenLayer(s.weights, s.nodes, inputs, bias, act, l, o);
    }
  }
}
