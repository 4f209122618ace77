/** The adversarial trainer of src/gan.rs: a discriminator and a generator
    network, each a `Dnn.DNN`, trained against each other. */
module Gan {
  import opened Oracle
  import opened Dnn
  import opened Outcome

  /** Why new refuses a pair of topologies (each is a panic in gan.rs). */
  datatype ShapeError =
    | EmptyDiscriminator          // `discriminator_nodes[len - 1]` underflows
    | OutputNotSingle(width: nat) // the discriminator's last layer is not one node wide
    | InterfaceMismatch           // the discriminator's input width is not the generator's output width

  /** The guards of new (gan.rs:10-15), in the order the code checks them. */
  function CheckShapes(discNodes: seq<nat>, genNodes: seq<nat>): (r: Result<(), ShapeError>)
    ensures r.Ok? <==> |discNodes| >= 1 && discNodes[|discNodes| - 1] == 1 &&
                       |genNodes| >= 1 && discNodes[0] == genNodes[|genNodes| - 1]
    ensures r == Err(EmptyDiscriminator) <==> |discNodes| == 0
    ensures r.Err? && r.error.OutputNotSingle? ==> |discNodes| >= 1 && r.error.width == discNodes[|discNodes| - 1] != 1
  {
    if |discNodes| == 0 then Err(EmptyDiscriminator)
    else if discNodes[|discNodes| - 1] != 1 then Err(OutputNotSingle(discNodes[|discNodes| - 1]))
    else if |genNodes| == 0 || discNodes[0] != genNodes[|genNodes| - 1] then Err(InterfaceMismatch)
    else Ok(())
  }

  // ---------------------------------------------------------------------------
  // The two networks as values

  /** Both networks' states and the generator stream's position. */
  datatype Pair = Pair(disc: NetState, gen: NetState, pos: nat)

  /** Both networks are well formed, the discriminator ends in a single node and
      reads exactly what the generator produces. */
  ghost predicate Paired(p: Pair) {
    ValidState(p.disc) && ValidState(p.gen) &&
    |p.disc.nodes[|p.disc.nodes| - 1]| == 1 &&
    |p.disc.nodes[0]| == |p.gen.nodes[|p.gen.nodes| - 1]|
  }

  /** The networks have the same widths layer by layer. */
  ghost predicate SameLayout(p: Pair, q: Pair) {
    SameWidths(p.disc.nodes, q.disc.nodes) && SameWidths(p.gen.nodes, q.gen.nodes)
  }

  /** train_discriminator's commit schedule (gan.rs:33). */
  predicate DiscCommits(image: nat) {
    image % 5 == 0
  }

  /** train_generator's commit schedule (gan.rs:44). */
  predicate GenCommits(iter: nat) {
    iter % 10 == 9
  }

  /** One pass of train_discriminator's loop (gan.rs:28-33): a generator run on
      fresh noise, a discriminator train on its output towards 0 that never
      commits, and one on `sample` towards 1 that commits when `commit` holds. */
  function DiscRound(p: Pair, sample: seq<real>, commit: bool, draw: nat -> real,
                     dAct: real -> real, gAct: real -> real): (r: Pair)
    requires Paired(p) && |sample| <= |p.disc.nodes[0]|
    ensures Paired(r) && SameLayout(r, p) && r.pos == p.pos + |p.gen.nodes[0]|
    ensures r.gen.weights == p.gen.weights && r.gen.adjustment == p.gen.adjustment
  {
    var noise := Draws(draw, p.pos, |p.gen.nodes[0]|);
    var g := AfterRun(p.gen, noise, p.gen.biasOutput, gAct);
    var fake := Outputs(g.nodes[|g.nodes| - 1]);
    var d1 := AfterTrain(p.disc, fake, [0.0], false, p.disc.biasOutput, dAct);
    var d2 := AfterTrain(d1, sample, [1.0], commit, d1.biasOutput, dAct);
    Pair(d2, g, p.pos + |p.gen.nodes[0]|)
  }

  /** `q` is `p` after one discriminator round on `sample`. */
  ghost predicate DiscStep(p: Pair, sample: seq<real>, commit: bool, q: Pair, draw: nat -> real,
                           dAct: real -> real, gAct: real -> real) {
    Paired(p) && |sample| <= |p.disc.nodes[0]| && q == DiscRound(p, sample, commit, draw, dAct, gAct)
  }

  /** The error get_error (gan.rs:94-112) returns once the discriminator's
      nodes hold `d`: the raw errors against `targets` projected down to the
      input layer through the weights, as `Dnn.Expected` defines them. */
  function Feedback(d: NetState, targets: seq<real>): (r: seq<real>)
    requires ValidState(d) && |d.nodes[|d.nodes| - 1]| <= |targets|
    ensures |d.nodes[0]| <= |r|
    ensures |d.nodes| > 1 ==> |r| == |d.nodes[0]|
  {
    Expected(d.weights, d.nodes, targets, 0)
  }

  /** One pass of train_generator's loop (gan.rs:39-44): a generator run on
      fresh noise, a discriminator run on its output, a get_error whose inputs
      are that run's one output (gan.rs:42), and a generator train towards the
      returned errors that commits when `commit` holds. */
  function GenRound(p: Pair, commit: bool, draw: nat -> real,
                    dAct: real -> real, gAct: real -> real): (r: Pair)
    requires Paired(p) && |p.disc.nodes[0]| >= 1
    ensures Paired(r) && SameLayout(r, p) && r.pos == p.pos + |p.gen.nodes[0]|
    ensures r.disc.weights == p.disc.weights && r.disc.adjustment == p.disc.adjustment
  {
    var noise := Draws(draw, p.pos, |p.gen.nodes[0]|);
    var g1 := AfterRun(p.gen, noise, p.gen.biasOutput, gAct);
    var fake := Outputs(g1.nodes[|g1.nodes| - 1]);
    var d1 := AfterRun(p.disc, fake, p.disc.biasOutput, dAct);
    var output := Outputs(d1.nodes[|d1.nodes| - 1]);
    var d2 := AfterRun(d1, output, d1.biasOutput, dAct);
    var errors := Feedback(d2, [1.0]);
    var g2 := AfterTrain(g1, noise, errors, commit, g1.biasOutput, gAct);
    Pair(d2, g2, p.pos + |p.gen.nodes[0]|)
  }

  /** `q` is `p` after one generator round. */
  ghost predicate GenStep(p: Pair, commit: bool, q: Pair, draw: nat -> real, dAct: real -> real, gAct: real -> real) {
    Paired(p) && |p.disc.nodes[0]| >= 1 && q == GenRound(p, commit, draw, dAct, gAct)
  }

  /** The first `n` passes of train_discriminator's loop (gan.rs:28-33):
      pass `i` trains on `inputs[i]` and commits when `DiscCommits(i)`. */
  function DiscRounds(p: Pair, inputs: seq<seq<real>>, n: nat, draw: nat -> real,
                      dAct: real -> real, gAct: real -> real): (r: Pair)
    requires Paired(p) && n <= |inputs|
    requires forall i :: 0 <= i < n ==> |inputs[i]| <= |p.disc.nodes[0]|
    ensures Paired(r) && |r.disc.nodes[0]| == |p.disc.nodes[0]|
    ensures r.gen.weights == p.gen.weights && r.gen.adjustment == p.gen.adjustment
    ensures |r.gen.nodes[0]| == |p.gen.nodes[0]| && r.pos == p.pos + n * |p.gen.nodes[0]|
    decreases n
  {
    if n == 0 then p
    else
      var q := DiscRounds(p, inputs, n - 1, draw, dAct, gAct);
      DiscRound(q, inputs[n - 1], DiscCommits(n - 1), draw, dAct, gAct)
  }

  /** The first `n` passes of train_generator's loop (gan.rs:39-44): pass `i`
      follows the get_error feedback and commits when `GenCommits(i)`. */
  function GenRounds(p: Pair, n: nat, draw: nat -> real,
                     dAct: real -> real, gAct: real -> real): (r: Pair)
    requires Paired(p) && (n > 0 ==> |p.disc.nodes[0]| >= 1)
    ensures Paired(r) && |r.disc.nodes[0]| == |p.disc.nodes[0]|
    ensures r.disc.weights == p.disc.weights && r.disc.adjustment == p.disc.adjustment
    ensures |r.gen.nodes[0]| == |p.gen.nodes[0]| && r.pos == p.pos + n * |p.gen.nodes[0]|
    decreases n
  {
    if n == 0 then p
    else
      var q := GenRounds(p, n - 1, draw, dAct, gAct);
      GenRound(q, GenCommits(n - 1), draw, dAct, gAct)
  }

  // ---------------------------------------------------------------------------
  // What training does to each network

  /** What a discriminator round does with its commit flag: with it the
      pending adjustments are reset to zeros of their shape (`ZeroAll`),
      without it the weights stay as they were (the fake-sample half never
      commits). */
  lemma DiscRoundSchedule(p: Pair, sample: seq<real>, commit: bool, draw: nat -> real,
                          dAct: real -> real, gAct: real -> real)
    requires Paired(p) && |sample| <= |p.disc.nodes[0]|
    ensures var r := DiscRound(p, sample, commit, draw, dAct, gAct);
            (commit ==> r.disc.adjustment == Zero(p.disc.adjustment)) &&
            (!commit ==> r.disc.weights == p.disc.weights)
  {
    var noise := Draws(draw, p.pos, |p.gen.nodes[0]|);
    var g := AfterRun(p.gen, noise, p.gen.biasOutput, gAct);
    var fake := Outputs(g.nodes[|g.nodes| - 1]);
    var d1 := AfterTrain(p.disc, fake, [0.0], false, p.disc.biasOutput, dAct);
    ZeroShape(d1.adjustment, p.disc.adjustment);
  }

  /** What a generator round does with its commit flag: with it the pending
      adjustments are reset to zeros of their shape, without it the weights
      stay as they were. */
  lemma GenRoundSchedule(p: Pair, commit: bool, draw: nat -> real, dAct: real -> real, gAct: real -> real)
    requires Paired(p) && |p.disc.nodes[0]| >= 1
    ensures var r := GenRound(p, commit, draw, dAct, gAct);
            (commit ==> r.gen.adjustment == Zero(p.gen.adjustment)) &&
            (!commit ==> r.gen.weights == p.gen.weights)
  {
  }

  /** get_error at gan.rs:42 is handed the discriminator's one output as its
      inputs, so its forward pass rewrites only input node 0; every other input
      node keeps the fake sample the previous run wrote there. */
  lemma GenRoundInputQuirk(p: Pair, commit: bool, draw: nat -> real, dAct: real -> real, gAct: real -> real)
    requires Paired(p) && |p.disc.nodes[0]| >= 1
    ensures var noise := Draws(draw, p.pos, |p.gen.nodes[0]|);
            var g1 := AfterRun(p.gen, noise, p.gen.biasOutput, gAct);
            var fake := Outputs(g1.nodes[|g1.nodes| - 1]);
            var d1 := AfterRun(p.disc, fake, p.disc.biasOutput, dAct);
            var output := Outputs(d1.nodes[|d1.nodes| - 1]);
            var r := GenRound(p, commit, draw, dAct, gAct);
            |output| == 1 &&
            r.disc.nodes[0][0] == Node(output[0], output[0]) &&
            forall k :: 1 <= k < |r.disc.nodes[0]| ==> r.disc.nodes[0][k] == Node(fake[k], fake[k])
  {
    var noise := Draws(draw, p.pos, |p.gen.nodes[0]|);
    var g1 := AfterRun(p.gen, noise, p.gen.biasOutput, gAct);
    var fake := Outputs(g1.nodes[|g1.nodes| - 1]);
    var d1 := AfterRun(p.disc, fake, p.disc.biasOutput, dAct);
    var output := Outputs(d1.nodes[|d1.nodes| - 1]);
    forall k | 0 <= k < |p.disc.nodes[0]|
      ensures GenRound(p, commit, draw, dAct, gAct).disc.nodes[0][k] ==
              if k < 1 then Node(output[0], output[0]) else Node(fake[k], fake[k])
    {
      ForwardInputLayer(d1.weights, d1.nodes, output, d1.biasOutput, dAct, k);
      ForwardInputLayer(p.disc.weights, p.disc.nodes, fake, p.disc.biasOutput, dAct, k);
    }
  }

  /** gen_noise's values lie in [0, 1) when every draw of the stream does. */
  lemma NoiseRange(draw: nat -> real, start: nat, n: nat)
    requires forall k: nat :: 0.0 <= draw(k) < 1.0
    ensures forall k :: 0 <= k < n ==> 0.0 <= Draws(draw, start, n)[k] < 1.0
  {
    forall k | 0 <= k < n
      ensures 0.0 <= Draws(draw, start, n)[k] < 1.0
    {
      assert 0.0 <= draw(start + k) < 1.0;
    }
  }

  /** The flags of the first `n` passes of a loop whose pass `i` commits when
      `commits(i)`. */
  function Flags(n: nat, commits: nat -> bool): (r: seq<bool>)
    ensures |r| == n
  {
    if n == 0 then [] else Flags(n - 1, commits) + [commits(n - 1)]
  }

  /** Flag `i` is the schedule's verdict on pass `i`. */
  lemma {:induction false} FlagsAt(n: nat, commits: nat -> bool, i: nat)
    requires i < n
    ensures Flags(n, commits)[i] == commits(i)
  {
    if i < n - 1 {
      FlagsAt(n - 1, commits, i);
    }
  }

  /** One training pass kept to its flag: a committing pass resets the pending
      adjustments to zeros of their shape, any other leaves the weights as they
      were. */
  ghost predicate KeepsFlag(before: NetState, after: NetState, commit: bool) {
    (commit ==> after.adjustment == Zero(before.adjustment)) &&
    (!commit ==> after.weights == before.weights)
  }

  /** `states[i + 1]` is one network after pass `i` of a training loop, and
      every pass kept to its flag `commits[i]`. */
  ghost predicate Scheduled(states: seq<NetState>, commits: seq<bool>)
    decreases |commits|
  {
    |states| == |commits| + 1 &&
    (|commits| > 0 ==>
       Scheduled(states[..|commits|], commits[..|commits| - 1]) &&
       KeepsFlag(states[|commits| - 1], states[|commits|], commits[|commits| - 1]))
  }

  /** What a schedule says about any one pass. */
  lemma {:induction false} ScheduledAt(states: seq<NetState>, commits: seq<bool>, i: nat)
    requires Scheduled(states, commits) && i < |commits|
    ensures KeepsFlag(states[i], states[i + 1], commits[i])
    decreases |commits|
  {
    var n := |commits|;
    if i < n - 1 {
      ScheduledAt(states[..n], commits[..n - 1], i);
      assert states[..n][i] == states[i] && states[..n][i + 1] == states[i + 1];
    }
  }

  /** One more pass that keeps to its flag extends a schedule. */
  lemma ScheduledExtend(states: seq<NetState>, commits: seq<bool>, s: NetState, commit: bool)
    requires Scheduled(states, commits) && KeepsFlag(states[|states| - 1], s, commit)
    ensures Scheduled(states + [s], commits + [commit])
  {
    assert (states + [s])[..|commits| + 1] == states;
    assert (commits + [commit])[..|commits|] == commits;
  }

  // ---------------------------------------------------------------------------
  // The loops, on the objects

  /** The loops of get_error after its forward pass (gan.rs:97-111) for one
      transition: `next[i]` accumulates `w[i][o] * error[o]` over every output
      `o`, for the real rows `i < width` only. */
  method ErrorLayer(wl: Matrix, width: nat, cur: Layer, expected: seq<real>) returns (next: seq<real>)
    requires width <= |wl| && |cur| <= |expected| && forall i :: 0 <= i < |wl| ==> |wl[i]| == |cur|
    ensures next == BackProject(wl, Errors(expected, cur), width)
  {
    ghost var err := Errors(expected, cur);
    next := Zeros(width);
    for output := 0 to |cur|
      invariant |next| == width
      invariant forall r :: 0 <= r < width ==> next[r] == BackSum(wl[r], err, output)
    {
      var error := expected[output] - cur[output].output;
      for input := 0 to width
        invariant |next| == width
        invariant forall r :: 0 <= r < width ==> next[r] == BackSum(wl[r], err, if r < input then output + 1 else output)
      {
        next := next[input := next[input] + wl[input][output] * error];
      }
    }
  }

  /** The layer loop of get_error (gan.rs:97-111): from the output layer down,
      each layer's projected error becomes the expected values of the next. */
  method ErrorPass(w: Tensor, m: seq<Layer>, targets: seq<real>) returns (e: seq<real>)
    requires Shaped(w, m) && |m[|m| - 1]| <= |targets|
    ensures e == Expected(w, m, targets, 0)
  {
    e := targets;
    var layer := |m| - 1;
    while layer > 0
      invariant 0 <= layer < |m|
      invariant e == Expected(w, m, targets, layer)
    {
      e := ErrorLayer(w[layer - 1], |m[layer - 1]|, m[layer], e);
      layer := layer - 1;
    }
  }

  /** gen_noise (gan.rs:114-121): the next `n` values of the stream. */
  method GenNoise(n: nat, rng: Rng) returns (ret: seq<real>)
    modifies rng
    ensures ret == Draws(rng.draw, old(rng.pos), n)
    ensures rng.pos == old(rng.pos) + n
  {
    ret := [];
    for i := 0 to n
      invariant rng.pos == old(rng.pos) + i
      invariant ret == Draws(rng.draw, old(rng.pos), i)
    {
      var r := rng.Next();
      ret := ret + [r];
    }
  }

  /** generate (gan.rs:22-24): a run of the generator on `noise`. */
  method Generate(gen: DNN, noise: seq<real>) returns (ret: seq<real>)
    requires gen.Valid() && |noise| <= |gen.nodeVals[0]|
    modifies gen
    ensures gen.State() == AfterRun(old(gen.State()), noise, gen.biasOutput, gen.act)
    ensures gen.Valid() && ret == Outputs(gen.nodeVals[|gen.nodeVals| - 1])
  {
    ret := gen.Run(noise);
  }

  /** get_error (gan.rs:94-112): a run of the discriminator on `inputs`, then
      the raw errors against `outputs` projected to its input layer. */
  method GetError(disc: DNN, inputs: seq<real>, outputs: seq<real>) returns (ret: seq<real>)
    requires disc.Valid() && |inputs| <= |disc.nodeVals[0]| && |disc.nodeVals[|disc.nodeVals| - 1]| <= |outputs|
    modifies disc
    ensures disc.State() == AfterRun(old(disc.State()), inputs, disc.biasOutput, disc.act)
    ensures disc.Valid() && ret == Feedback(disc.State(), outputs)
  {
    var ignored := disc.Run(inputs);
    ret := ErrorPass(disc.weights, disc.nodeVals, outputs);
  }

  /** The trainer of gan.rs:4-7: it owns two distinct networks. */
  class GAN {
    const discriminator: DNN
    const generator: DNN

    /** Both networks and the stream position as a value. */
    function PairAt(pos: nat): Pair
      reads discriminator, generator
    {
      Pair(discriminator.State(), generator.State(), pos)
    }

    ghost predicate Valid()
      reads this, discriminator, generator
    {
      discriminator != generator && discriminator.Valid() && generator.Valid() && Paired(PairAt(0))
    }

    constructor (discriminator: DNN, generator: DNN)
      requires discriminator != generator && discriminator.Valid() && generator.Valid()
      requires Paired(Pair(discriminator.State(), generator.State(), 0))
      ensures Valid() && this.discriminator == discriminator && this.generator == generator
    {
      this.discriminator := discriminator;
      this.generator := generator;
    }

    /** One pass of train_discriminator's loop (gan.rs:29-33). */
    method DiscPass(sample: seq<real>, commit: bool, rng: Rng)
      requires Valid() && |sample| <= |discriminator.nodeVals[0]|
      modifies discriminator, generator, rng
      ensures Valid()
      ensures DiscStep(old(PairAt(rng.pos)), sample, commit, PairAt(rng.pos), rng.draw,
                       discriminator.act, generator.act)
      ensures KeepsFlag(old(discriminator.State()), discriminator.State(), commit)
      ensures generator.weights == old(generator.weights)
      ensures generator.weightsAdjustment == old(generator.weightsAdjustment)
      ensures |discriminator.nodeVals[0]| == |old(discriminator.nodeVals[0])|
    {
      ghost var before := PairAt(rng.pos);
      var noise := GenNoise(|generator.nodeVals[0]|, rng);
      var fake := Generate(generator, noise);
      discriminator.Train(fake, [0.0], false);
      discriminator.Train(sample, [1.0], commit);
      DiscRoundSchedule(before, sample, commit, rng.draw, discriminator.act, generator.act);
    }

    /** train_discriminator (gan.rs:26-35): one `DiscPass` per image, the one
        on image `i` committing exactly when `DiscCommits(i)`. `trace[i]` is the
        state before image `i`: pass `i` resets the pending adjustments to zeros
        of their shape when it commits and the weights as they were when it does not.
        The pair ends at `DiscRounds` of where it began over all the inputs,
        and the generator's weights and pending adjustments end as they began. */
    method TrainDiscriminator(inputs: seq<seq<real>>, rng: Rng) returns (ghost trace: seq<NetState>, ghost commits: seq<bool>)
      requires Valid() && forall i :: 0 <= i < |inputs| ==> |inputs[i]| <= |discriminator.nodeVals[0]|
      modifies discriminator, generator, rng
      ensures Valid()
      ensures Scheduled(trace, commits) && trace[0] == old(discriminator.State()) && trace[|trace| - 1] == discriminator.State()
      ensures commits == Flags(|inputs|, DiscCommits)
      ensures PairAt(rng.pos) == DiscRounds(old(PairAt(rng.pos)), inputs, |inputs|, rng.draw,
                                            discriminator.act, generator.act)
      ensures generator.weights == old(generator.weights)
      ensures generator.weightsAdjustment == old(generator.weightsAdjustment)
    {
      ghost var start := PairAt(rng.pos);
      trace, commits := [discriminator.State()], [];
      for image := 0 to |inputs|
        invariant Valid() && Scheduled(trace, commits)
        invariant PairAt(rng.pos) == DiscRounds(start, inputs, image, rng.draw, discriminator.act, generator.act)
        invariant trace[0] == old(discriminator.State()) && trace[|trace| - 1] == discriminator.State()
        invariant commits == Flags(image, DiscCommits)
        invariant generator.weights == old(generator.weights)
        invariant generator.weightsAdjustment == old(generator.weightsAdjustment)
        invariant |discriminator.nodeVals[0]| == |old(discriminator.nodeVals[0])|
      {
        DiscPass(inputs[image], DiscCommits(image), rng);
        ScheduledExtend(trace, commits, discriminator.State(), DiscCommits(image));
        trace, commits := trace + [discriminator.State()], commits + [DiscCommits(image)];
      }
    }

    /** One pass of train_generator's loop (gan.rs:39-44). */
    method GenPass(commit: bool, rng: Rng)
      requires Valid() && |discriminator.nodeVals[0]| >= 1
      modifies discriminator, generator, rng
      ensures Valid()
      ensures GenStep(old(PairAt(rng.pos)), commit, PairAt(rng.pos), rng.draw, discriminator.act, generator.act)
      ensures KeepsFlag(old(generator.State()), generator.State(), commit)
      ensures discriminator.weights == old(discriminator.weights)
      ensures discriminator.weightsAdjustment == old(discriminator.weightsAdjustment)
      ensures |discriminator.nodeVals[0]| == |old(discriminator.nodeVals[0])|
    {
      ghost var before := PairAt(rng.pos);
      var noise := GenNoise(|generator.nodeVals[0]|, rng);
      var fake := Generate(generator, noise);
      var output := discriminator.Run(fake);
      var errors := GetError(discriminator, output, [1.0]);
      generator.Train(noise, errors, commit);
      GenRoundSchedule(before, commit, rng.draw, discriminator.act, generator.act);
    }

    /** train_generator (gan.rs:37-46): one `GenPass` per iteration, the one
        on iteration `i` committing exactly when `GenCommits(i)`. `trace[i]` is
        the state before iteration `i`: pass `i` resets the pending adjustments
        to zeros of their shape when it commits and the weights as they were when it does not.
        The pair ends at `GenRounds` of where it began over `iters` passes, and
        the discriminator's weights and pending adjustments end as they began. A
        discriminator whose input layer is empty makes get_error's forward pass
        index out of bounds, hence the requires. */
    method TrainGenerator(iters: nat, rng: Rng) returns (ghost trace: seq<NetState>, ghost commits: seq<bool>)
      requires Valid() && (iters > 0 ==> |discriminator.nodeVals[0]| >= 1)
      modifies discriminator, generator, rng
      ensures Valid()
      ensures Scheduled(trace, commits) && trace[0] == old(generator.State()) && trace[|trace| - 1] == generator.State()
      ensures commits == Flags(iters, GenCommits)
      ensures PairAt(rng.pos) == GenRounds(old(PairAt(rng.pos)), iters, rng.draw, discriminator.act, generator.act)
      ensures discriminator.weights == old(discriminator.weights)
      ensures discriminator.weightsAdjustment == old(discriminator.weightsAdjustment)
    {
      ghost var start := PairAt(rng.pos);
      trace, commits := [generator.State()], [];
      for iter := 0 to iters
        invariant Valid() && Scheduled(trace, commits)
        invariant PairAt(rng.pos) == GenRounds(start, iter, rng.draw, discriminator.act, generator.act)
        invariant trace[0] == old(generator.State()) && trace[|trace| - 1] == generator.State()
        invariant commits == Flags(iter, GenCommits)
        invariant discriminator.weights == old(discriminator.weights)
        invariant discriminator.weightsAdjustment == old(discriminator.weightsAdjustment)
        invariant |discriminator.nodeVals[0]| == |old(discriminator.nodeVals[0])|
      {
        GenPass(GenCommits(iter), rng);
        ScheduledExtend(trace, commits, generator.State(), GenCommits(iter));
        trace, commits := trace + [generator.State()], commits + [GenCommits(iter)];
      }
    }
  }

  /** new (gan.rs:9-20): the guards, then both networks built with `Dnn.DNN`'s
      constructor, the discriminator drawing its weights first. */
  method NewGan(discNodes: seq<nat>, genNodes: seq<nat>, act: real -> real, rng: Rng)
    returns (r: Result<GAN, ShapeError>)
    requires rng.Valid()
    modifies rng
    ensures r.Err? <==> CheckShapes(discNodes, genNodes).Err?
    ensures r.Err? ==> r.error == CheckShapes(discNodes, genNodes).error && rng.pos == old(rng.pos)
    ensures r.Ok? ==> r.value.Valid() && fresh(r.value.discriminator) && fresh(r.value.generator)
    ensures r.Ok? ==> r.value.discriminator.weights == InitialWeights(discNodes, rng.draw, old(rng.pos))
    ensures r.Ok? ==>
              r.value.generator.weights == InitialWeights(genNodes, rng.draw, old(rng.pos) + WeightCount(discNodes))
    ensures r.Ok? ==>
              var d, g := r.value.discriminator, r.value.generator;
              d.State() == NetState(d.weights, Zero(d.weights), InitialNodes(discNodes, act), act(1.0), DefaultLearnRate) &&
              g.State() == NetState(g.weights, Zero(g.weights), InitialNodes(genNodes, act), act(1.0), DefaultLearnRate) &&
              d.act == act && g.act == act &&
              rng.pos == old(rng.pos) + WeightCount(discNodes) + WeightCount(genNodes)
  {
    var check := CheckShapes(discNodes, genNodes);
    if check.Err? {
      return Err(check.error);
    }
    var start := rng.pos;
    var disc := new DNN(discNodes, act, rng);
    var gen := new DNN(genNodes, act, rng);
    var gan := new GAN(disc, gen);
    return Ok(gan);
  }
}
