# ann — a Dafny model of a small neural-network library

The repository is a Rust library of fully connected networks. It has four parts:

- **The dense engine (`src/dnn.rs`).** A network owns nested weight and pending-adjustment tensors. `weights[l][i][o]` is the weight from input row `i` of layer `l` to output `o` of layer `l + 1`, and the last row of every matrix is the bias row. The network also holds a value/output pair per node, a bias output and a learning rate.
  - `new` builds the shapes and draws every weight.
  - `run_net` is an in-place forward pass.
  - `train_net` runs a forward pass and then backpropagation with deferred updates. With `execute = false` it only accumulates gradients into the pending adjustments. With `execute = true` it also folds every pending entry into its weight and zeroes it.
- **The adversarial trainer (`src/gan.rs`).** It holds a discriminator and a generator. It checks their shapes and trains each against the other on fixed commit schedules. `get_error` pushes the raw errors back to the discriminator's input layer.
- **The earlier engine (`src/net.rs`).** It is the same algorithm over `f64`. It stores a bias output of 1 and applies the activation to it at every use.
- **The IDX (MNIST) decoders (`src/mnist.rs`).** They turn label files into one-hot vectors of length 10, and image files into 784-pixel vectors scaled to [0, 1].

## How the model is organised

- **`Dnn` (dnn.dfy)** is the engine.
  - Tensors are `seq<seq<seq<real>>>`. A network's fields as a value are a `NetState`.
  - The meaning of each operation is a function on values:
    - `Forward` is the nodes after a forward pass;
    - `Delta` is everything one backward pass adds to the pending adjustments;
    - `AfterRun` and `AfterTrain` are the whole state after a call;
    - `InitialWeights` and `InitialNodes` are what `new` builds from a stream of draws.
  - The source's loops are methods proved against those functions: `ForwardPass`, `TrainColumn`, `TrainLayer`, `BackwardPass`, `NewRow`, `NewMatrix`, `NewLayer` and `NewNet`.
  - The class `DNN` holds the fields, which its methods update in place.
  - Lemmas state, entry by entry, what the functions mean.
- **`Gan` (gan.dfy)** is the trainer.
  - One pass of each training loop is a function on a `Pair` of network states (`DiscRound`, `GenRound`), and the first `n` passes are their chains (`DiscRounds`, `GenRounds`).
  - The class `GAN` runs these passes on two distinct `DNN` objects. Its loops record a ghost trace of one network's states and prove, pass by pass, what the commit schedule does.
- **`LegacyNet` (legacy.dfy)** is the earlier engine, as a class over the same value-level passes. It differs in the bias source it feeds them. Lemmas show that over the reals it agrees with `Dnn`.
- **`Mnist` (mnist.dfy)** contains the two decoders over a `seq<byte>`. Each is a function that returns `Ok` or the panic as an `Err`, plus the source's loops as methods proved equal to it.
- **`Oracle` (oracle.dfy)** models `rand::random` as an injected stream. `draw(k)` is the k-th value and lies in [0, 1). `Rng.pos` counts the values taken so far.
- **`Outcome` (outcome.dfy)** holds the `Result` type.

Arithmetic is over `real`. The activation is an arbitrary function `act: real -> real` fixed at construction. Its derivative is written `act(x) * (1 - act(x))` (`Dnn.Deriv`), as the logistic function's is.

## Model

| member | source | states |
|---|---|---|
| Oracle.Rng.Next | src/dnn.rs:41 | takes the next value of the stream, which lies in [0, 1) |
| Oracle.Draws | src/gan.rs:117-119 | the next `n` values of the stream, in order |
| Dnn.CellsProduct | src/dnn.rs:31-42 | a transition takes `rows * cols` draws, counted row by row |
| Dnn.NewRow | src/dnn.rs:40-42 | one row is `2r - 1` for each of the next `cols` draws `r`, and the stream advances by `cols` |
| Dnn.NewMatrix | src/dnn.rs:28-43 | one transition: `rows` rows drawn in order, a zero adjustment of the same shape, one fresh node per real row, and `rows * cols` draws consumed |
| Dnn.NewLayer | src/dnn.rs:46-53 | the output layer: `n` nodes with value 0 and output `act(0)` |
| Dnn.NewNet | src/dnn.rs:18-53 | new's loops build the weights drawn transition by transition from the stream, zero adjustments of their shape and fresh nodes of every width, taking `WeightCount` draws |
| Dnn.InitialUpToShape | src/dnn.rs:28-32 | transition `l` has `nodes[l] + 1` rows of `nodes[l + 1]` columns |
| Dnn.InitialShape | src/dnn.rs:19-53 | a fresh network has one node layer per topology entry, `len - 1` transitions of `(nodes[l] + 1) x nodes[l + 1]`, and adjustments of the same shape; a one-entry topology gives no transition and one node layer |
| Dnn.InitialMatrixRange | src/dnn.rs:41 | a weight drawn from a value in [0, 1) lies in [-1, 1) |
| Dnn.InitialValues | src/dnn.rs:33-41 | every fresh adjustment is 0 and every fresh weight lies in [-1, 1) |
| Dnn.DNN.constructor | src/dnn.rs:17-56 | new: the drawn weights, zero adjustments, fresh nodes, bias output `act(1)`, learning rate 0.1, and exactly `WeightCount` draws taken |
| Dnn.ForwardPass | src/dnn.rs:59-76 | the forward loops compute exactly `Forward`: the input layer written, then every layer from the one below |
| Dnn.ForwardInputLayer | src/dnn.rs:59-62 | input node `k` gets value and output `inputs[k]` for every `k` below the number of inputs, and every other input node is kept |
| Dnn.ForwardHiddenLayer | src/dnn.rs:64-75 | node `o` of layer `l >= 1` gets as value the sum of `w[l-1][i][o]` times the new output of node `i`, plus the bias row's weight times the bias output, and as output `act` of that value |
| Dnn.DotRealRows | src/dnn.rs:67-72 | the real rows of a weighted sum never read the bias output: the sum over them is the same for any bias |
| Dnn.ForwardIdempotent | src/dnn.rs:58-76 | running the same inputs twice gives the nodes of running them once |
| Dnn.AfterRun | src/dnn.rs:58-84 | run_net keeps the weights, adjustments, bias output and learning rate, and all widths |
| Dnn.DNN.Run | src/dnn.rs:58-84 | the object's new state is `AfterRun` of its old one; it returns the last layer's outputs |
| Dnn.RunReturns | src/dnn.rs:74-83 | the returned vector has one entry per output node, each `act` of that node's value |
| Dnn.TrainColumn | src/dnn.rs:98-113 | for output `o`, every row's adjustment grows by `gradient * source(i)`; with execute the weight absorbs it and the adjustment becomes 0; the projected error of each real row gains `w[i][o] * error`, read before the weight changes |
| Dnn.ColumnEntries | src/dnn.rs:99-112 | column `o` of the per-transition result, entry by entry, in terms of the old weight, the old adjustment and the contribution |
| Dnn.TrainLayer | src/dnn.rs:92-116 | one transition: new weights and adjustments as `LayerWeights` and `LayerAdjustment` of its contribution, and the projected errors as `BackProject` through the pre-update weights onto the real rows only |
| Dnn.DeltaLayer | src/dnn.rs:91-116 | transition `k`'s contribution uses the expected values projected down from the targets to layer `k + 1` |
| Dnn.BackwardPass | src/dnn.rs:89-117 | the backward loops give weights `W + (A + D)` and adjustments 0 with execute, and weights `W` and adjustments `A + D` without |
| Dnn.AfterTrain | src/dnn.rs:86-118 | train_net keeps every shape, the bias output and the learning rate |
| Dnn.DNN.Train | src/dnn.rs:86-118 | the object's new state is `AfterTrain` of its old one |
| Dnn.DeltaEntry | src/dnn.rs:95-103 | the contribution to entry `[k][i][o]` is `Deriv(value) * (expected - output) * learnRate` of output `o`, times row `i`'s source (the real node's output or the bias output) |
| Dnn.TrainAccumulates | src/dnn.rs:99-109 | without execute the weights are unchanged and each adjustment entry grows by exactly its contribution |
| Dnn.TrainCommits | src/dnn.rs:109-112 | with execute every adjustment entry ends at 0 and each weight gains its old pending value plus this call's contribution |
| Dnn.ZeroShape | src/dnn.rs:111 | the zeroed adjustments depend only on the tensor's shape |
| Gan.CheckShapes | src/gan.rs:10-15 | new panics exactly when the discriminator topology is empty, its last width is not 1, or its first width is not the generator's last |
| Gan.NewGan | src/gan.rs:9-20 | the guards as `Err` (with the stream untouched); otherwise two fresh distinct networks, each in the whole state `new` gives its topology (drawn weights, zero adjustments, fresh nodes, bias output `act(1)`, learning rate 0.1, activation `act`), the discriminator drawing first and the stream advanced by both weight counts |
| Gan.GAN.constructor | src/gan.rs:16-19 | the trainer owns the two networks it is given |
| Gan.DiscRound | src/gan.rs:28-33 | one discriminator pass keeps both networks well formed and paired, and keeps the generator's weights and adjustments |
| Gan.GenRound | src/gan.rs:39-44 | one generator pass keeps both networks well formed and paired, and keeps the discriminator's weights and adjustments |
| Gan.DiscRoundSchedule | src/gan.rs:31-33 | a committing discriminator pass resets its adjustments to zero; any other pass leaves its weights as they were, since the fake-sample half never commits |
| Gan.GenRoundSchedule | src/gan.rs:44 | a committing generator pass resets its adjustments to zero; any other pass leaves its weights as they were |
| Gan.DiscRounds | src/gan.rs:28-33 | the first `n` discriminator passes, pass `i` on `inputs[i]` with flag `i % 5 == 0`, keep the pair well formed, keep the generator's weights and adjustments, and advance the stream by one noise vector per pass |
| Gan.GenRounds | src/gan.rs:39-44 | the first `n` generator passes, pass `i` with flag `i % 10 == 9`, keep the pair well formed, keep the discriminator's weights and adjustments, and advance the stream by one noise vector per pass |
| Gan.GenRoundInputQuirk | src/gan.rs:41-42 | get_error's run (gan.rs:95, through dnn.rs:59-62) overwrites only input node 0 (with the one output); every other input node keeps the fake sample |
| Gan.Feedback | src/gan.rs:97-111 | the back-projected error has one entry per input node |
| Gan.ErrorLayer | src/gan.rs:100-106 | one layer step: `next[i]` is the sum over outputs of `w[i][o] * (expected[o] - output[o])`, for real rows only, with no derivative and no learning rate |
| Gan.ErrorPass | src/gan.rs:97-111 | the layer loop from the output layer down gives `Expected(.., 0)` |
| Gan.GetError | src/gan.rs:94-112 | get_error changes the discriminator only by a run (weights and adjustments kept) and returns the projected error |
| Gan.GenNoise | src/gan.rs:114-121 | exactly the next `n` values of the stream |
| Gan.NoiseRange | src/gan.rs:114-121 | every noise value lies in [0, 1) |
| Gan.Generate | src/gan.rs:22-24 | a run of the generator, returning its outputs |
| Gan.FlagsAt | src/gan.rs:33-44 | the recorded flag of pass `i` is the schedule's verdict on `i` |
| Gan.ScheduledAt | src/gan.rs:27-45 | in a recorded schedule every pass keeps to its flag |
| Gan.ScheduledExtend | src/gan.rs:27-45 | a pass that keeps to its flag extends a recorded schedule |
| Gan.GAN.DiscPass | src/gan.rs:29-33 | the pair of objects moves by exactly `DiscRound`; the discriminator keeps to the flag; the generator's tensors are unchanged |
| Gan.GAN.TrainDiscriminator | src/gan.rs:26-35 | the pair ends exactly at `DiscRounds` of its start over all the inputs: pass `i` trains on fresh noise and then on `inputs[i]`; pass `i` commits exactly when `i % 5 == 0` and keeps to that flag; the generator's weights and adjustments are unchanged over the call |
| Gan.GAN.GenPass | src/gan.rs:39-44 | the pair of objects moves by exactly `GenRound`; the generator keeps to the flag; the discriminator's tensors are unchanged |
| Gan.GAN.TrainGenerator | src/gan.rs:37-46 | the pair ends exactly at `GenRounds` of its start over `iters` passes, each following the get_error feedback; pass `i` commits exactly when `i % 10 == 9` and keeps to that flag; the discriminator's weights and adjustments are unchanged over the call |
| LegacyNet.CopyValues | src/net.rs:89-93 | the element-by-element copy (also net.rs:120-123) gives every value, in order |
| LegacyNet.Net.constructor | src/net.rs:17-56 | make_net builds the shapes, draws and fresh nodes of new, with stored bias output 1 |
| LegacyNet.Net.Run | src/net.rs:58-84 | the forward pass with bias source `act(1)`; weights and adjustments kept; returns the last layer's outputs |
| LegacyNet.Net.Train | src/net.rs:86-125 | the state after train_net is `AfterTrain` with bias source `act(1)` |
| LegacyNet.SameStart | src/net.rs:71 | both engines (stored 1 at net.rs:23, `act(1)` at dnn.rs:23) build the same tensors and nodes, and the bias value each feeds its passes is `act(1)` |
| LegacyNet.RunAgrees | src/net.rs:58-84 | over the reals run_net of both engines gives the same tensors, nodes and outputs |
| LegacyNet.TrainAgrees | src/net.rs:86-125 | over the reals train_net of both engines gives the same tensors and nodes |
| Mnist.OneHot | src/mnist.rs:47-49 | a vector of length 10 that is 1 at the label and 0 elsewhere |
| Mnist.Labels | src/mnist.rs:40-53 | read_label returns one vector per byte after the 8-byte header, and panics exactly on a file shorter than 8 bytes or a label of 10 or more |
| Mnist.ReadLabel | src/mnist.rs:44-52 | the label loop computes exactly `Labels` |
| Mnist.LabelRoundTrip | src/mnist.rs:44-52 | decoding a label file gives one vector per label whose only 1 is at that label |
| Mnist.PixelIndex | src/mnist.rs:32 | pixel `(x, y)` lands inside the 784-entry vector |
| Mnist.PixelIndexBijective | src/mnist.rs:30-33 | every index of the vector belongs to exactly one pixel `(x, y)`, so every pixel is written once |
| Mnist.Scale | src/mnist.rs:32 | a scaled byte lies in [0, 1] and is the byte divided by 255 |
| Mnist.Image | src/mnist.rs:28-34 | an image has 784 entries |
| Mnist.Decode | src/mnist.rs:21-38 | a decoder whose count subtracts `countOffset` panics on a file shorter than that offset, and otherwise succeeds exactly when its `n` images fit after the 16-byte header |
| Mnist.ImagesAsWritten | src/mnist.rs:27 | read_data as written succeeds exactly when `16 + n * 784 <= len` for `n = (len - 8) / 784` (or `n == 0`) |
| Mnist.Images | src/mnist.rs:27 | with the count taken from `len - 16` the decoder succeeds on every file of 16 bytes or more and returns `(len - 16) / 784` images |
| Mnist.ImagePixels | src/mnist.rs:28-33 | pixel `p` of image `i` is the byte at `16 + i * 784 + p` divided by 255, read in bounds, and lies in [0, 1] |
| Mnist.ReadImage | src/mnist.rs:28-34 | the pixel loops fill image `image`, or panic exactly when its bytes run past the end |
| Mnist.ReadData | src/mnist.rs:21-38 | the image loop computes exactly `Decode` |
| Mnist.DecodersAgree | src/mnist.rs:27-32 | on a well-formed file (16 header bytes, whole images) the code as written and the intended decoder agree, and image `i` is the scaled bytes of its slice |
| Mnist.AsWrittenPanics | src/mnist.rs:27-32 | a 792-byte file makes read_data as written panic, while the intended decoder returns no image |

## Left out

- Floating point is not modelled: `f32` and `f64` rounding, and overflow or NaN in `exp` inside the sigmoid (src/dnn.rs:138-143, src/net.rs:127-133). Arithmetic is exact over `real`, and the activation is an arbitrary function with the logistic derivative law. The precision difference between the two engines is therefore not captured either.
- `rand::random` is an injected stream of draws in [0, 1) (`Oracle.Rng`). The distribution is not modelled.
- The `as u32` cast in `gen_noise`'s caller (src/gan.rs:29, src/gan.rs:39) is not modelled. It only matters for layers wider than 2^32 nodes.
- `fs::read(..).unwrap()` and the `println!` calls in src/mnist.rs:22-23 and src/mnist.rs:41-42 are I/O. Each decoder takes the file's contents. The path wrappers `get_training_data` and the others (src/mnist.rs:8-19) only name files.
- src/main.rs is not part of this model. It is the process driver: timing, printing, epochs and the image dump.
- Commented-out code is not modelled: `tanh` (src/dnn.rs:129-137) and the combined `train` (src/gan.rs:48-92).
- Panics on bad calls are preconditions rather than results:
  - an empty topology in `new` and `make_net` (`len() - 1` underflows);
  - more inputs than input nodes in `run_net`;
  - fewer targets than output nodes in `train_net`.

  The source handles none of these.
- `bias_per_layer` is a field that is always 1. It is the constant `BiasPerLayer`.
- The clones and the moves of vectors are value assignments. Rust ownership and borrowing are not modelled.
- `Mnist.Labels`: on a label of 10 or more it returns `LabelOutOfRange`. It does not record which index panicked.
- Gan.GAN.TrainGenerator: a discriminator with an empty input layer makes `get_error`'s forward pass index out of bounds (src/gan.rs:42, src/dnn.rs:60), so when `iters > 0` the method requires a non-empty input layer.

## Findings

| source | as written | input that shows it | evidently intended | confidence | as-written member | corrected member |
|---|---|---|---|---|---|---|
| src/mnist.rs:27 | the image count is `(len - LABEL_OFFSET) / 784`, so it subtracts the 8-byte label header although pixels start after the 16-byte image header | a 792-byte image file: it counts one image, whose reads run to byte 799, so it panics out of bounds | `(len - DATA_OFFSET) / 784`, which never reads past the end for any file of at least 16 bytes and agrees with the code on well-formed files | not executed | Mnist.AsWrittenPanics | Mnist.Images |
