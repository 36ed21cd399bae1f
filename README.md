# tiny-dnn: half-precision bits, per-channel inference layers and kernel dispatch

This project models three self-contained parts of tiny-dnn (and its
predecessor tiny-cnn) in Dafny and proves properties of the model.

- **`half` at the bit level** (`half.dfy`, module `HalfPrecision`). A `half`
  is a 16-bit pattern in the binary16 interchange format of IEEE 754-2008:
  section 3.4 gives the encoding (1 sign bit, 5 biased-exponent bits, 10
  trailing-significand bits) and section 3.6 the parameters. The model covers:
  - the raw-bits constructor and the default constructor;
  - the seven classification predicates;
  - unary `+` and `-`, `operator!`, `==`, `!=` and `std::abs`.

  Each is written with the source's masks on a `bv16`. Its contract is stated
  through separate field extractors that shift instead of mask, and through
  the IEEE 754 classification `Classify`. `Widen` is a reference definition of
  the exact value a pattern denotes.
- **Per-channel inference layers**:
  - the tiny_dnn batch normalisation layer (`batchnorm_layer.dfy`, module `BatchNorm`);
  - the older tiny_cnn batch normalisation layer (`legacy_batchnorm_layer.dfy`, module `LegacyBatchNorm`);
  - the tiny_cnn binarising threshold layer (`bnn_threshold_layer.dfy`, module `BnnThreshold`).

  Each layer is a class. Its per-sample buffers (`a_` and `output_` in the
  batch normalisation layers, `output_` alone in the threshold layer) are
  fields of type `seq<seq<real>>`. `ForwardPropagation` fills them with the source's
  nested `ch`/`j` loops, and is proved against a specification function
  (`Normalize`, `Binarize`, `Activate`). Shared pieces live in
  `layer_core.dfy` (module `LayerCore`):
  - the `pos = ch * dim + j` layout and its bounds, coverage and injectivity lemmas;
  - the activation `h_.f(a, i)`, modelled as an uninterpreted function of the vector and an index;
  - the successor chain;
  - the "Not yet implemented" error.
- **Kernel dispatchers**:
  - `FullyConnectedOp::compute` (`fully_connected_op.dfy`);
  - `FullyConnectedGradOp::compute` (`fully_connected_grad_op.dfy`);
  - `GlobalAvePoolGradOp::compute` (`global_avepool_grad_op.dfy`).

  Each `Compute` is a method over an `OpKernelContext` object (`op_kernel.dfy`)
  whose input, output and gradient slots are `seq` fields. The backend kernels
  are function-typed parameters of the op. The contracts state:
  - which engine runs which kernel;
  - which engines raise "Not supported engine";
  - that the buffer the kernel writes into is zeroed first;
  - exactly which context slots change, including the bias-dependent slot 2 of the gradient;
  - that nothing changes on the error path.

Values in the layers are `real`s, not IEEE floats. The source's `float_t`
rounding is not modelled.

Where the model departs from a literal reading of the code:
- The tiny_dnn batch normalisation layer declares its forward and backward
  passes `void` yet returns a vector from them. The model follows the
  returned values, as the tiny_cnn layer declares them.
- `isZero` is written as `!bool(*this)`. The `bool` conversion is commented
  out, so the expression goes through `operator double`. The model uses the
  non-sign-bit mask, and `ZeroIffWidenedZero` proves that this agrees with
  "the value is zero".
- The default constructor's comment says "no initialization". However, the
  member initialiser `_h()` value-initialises the pattern to 0, and that is
  what `Default` models.
- The tiny_cnn layer's accessor reads stay inside `W_` for dim == 1, and also
  for dim == 0, where every offset collapses to `c`. So `ReadsInBoundsIff`
  states "iff dim <= 1". With dim == 0 the forward pass reads no statistics
  at all, and `MatchesChannelLayoutIff` states the dim == 1 case.

## Model

| member | source | states |
|---|---|---|
| HalfPrecision.Encode | tiny_dnn/util/half.h:46-48 | a pattern assembled from sign, exponent and significand fields has exactly those fields |
| HalfPrecision.EncodeFields | tiny_dnn/util/half.h:46-48 | the three fields of every pattern are in range and reassemble to the same pattern |
| HalfPrecision.Default | tiny_dnn/util/half.h:53 | `half()` is the positive zero |
| HalfPrecision.FromBits | tiny_dnn/util/half.h:57 | `half(u, true)` stores `u` verbatim: its sign, exponent and significand fields are those of `u` |
| HalfPrecision.IsFinite | tiny_dnn/util/half.h:210-212 | true iff the exponent field is not all ones |
| HalfPrecision.IsDenormalized | tiny_dnn/util/half.h:216-218 | true iff the class is Subnormal or Zero (exponent 0, so ±0 count as denormalized) |
| HalfPrecision.IsNormalized | tiny_dnn/util/half.h:213-215 | true iff the class is Normal |
| HalfPrecision.IsZero | tiny_dnn/util/half.h:219-221 | true iff the class is Zero, either sign |
| HalfPrecision.IsNan | tiny_dnn/util/half.h:222-224 | true iff the class is NaN (exponent all ones, significand non-zero) |
| HalfPrecision.IsInfinity | tiny_dnn/util/half.h:225-227 | true iff the class is Infinity (exponent all ones, significand zero) |
| HalfPrecision.IsNegative | tiny_dnn/util/half.h:228-230 | true iff the sign bit is 1 |
| HalfPrecision.Plus | tiny_dnn/util/half.h:108-110 | unary `+` returns a value with the operand's sign, exponent and significand |
| HalfPrecision.Negate | tiny_dnn/util/half.h:111-113 | unary `-` changes the sign field and keeps exponent and significand |
| HalfPrecision.Not | tiny_dnn/util/half.h:114-116 | `!x` is true iff exponent and significand are both 0 |
| HalfPrecision.Equal | tiny_dnn/util/half.h:155-157 | `==` holds iff all three fields agree |
| HalfPrecision.NotEqual | tiny_dnn/util/half.h:158-160 | `!=` holds iff some field differs |
| HalfPrecision.Abs | tiny_dnn/util/half.h:240-242 | `std::abs` yields sign 0 with the operand's exponent and significand |
| HalfPrecision.ClassPartition | tiny_dnn/util/half.h:210-227 | finite iff neither NaN nor infinity; a non-finite value is exactly one of them; normalized and denormalized are exclusive and together make up the finite values; zero is denormalized |
| HalfPrecision.NegateInvolution | tiny_dnn/util/half.h:111-113 | `-(-x)` has the bits of `x` |
| HalfPrecision.NegateFlipsSign | tiny_dnn/util/half.h:228-230 | `isNegative(-x) == !isNegative(x)` |
| HalfPrecision.NegatePreservesClass | tiny_dnn/util/half.h:111-113 | negation keeps the IEEE class |
| HalfPrecision.NegatePreservesFiniteness | tiny_dnn/util/half.h:210-212 | `isFinite`, `isNan` and `isInfinity` of `-x` are those of `x` |
| HalfPrecision.NegatePreservesNormalization | tiny_dnn/util/half.h:213-218 | `isNormalized` and `isDenormalized` of `-x` are those of `x` |
| HalfPrecision.NegatePreservesZero | tiny_dnn/util/half.h:219-221 | `isZero(-x)` and `!(-x)` agree with `isZero(x)` and `!x` |
| HalfPrecision.AbsNonNegative | tiny_dnn/util/half.h:240-242 | `abs(x)` is never negative and has the class of `x` |
| HalfPrecision.AbsIdempotent | tiny_dnn/util/half.h:240-242 | `abs(abs(x)) == abs(x)` |
| HalfPrecision.AbsOfNegate | tiny_dnn/util/half.h:240-242 | `abs(-x) == abs(x)` |
| HalfPrecision.AbsOfNonNegative | tiny_dnn/util/half.h:240-242 | `abs` leaves a non-negative pattern unchanged |
| HalfPrecision.ZeroPatterns | tiny_dnn/util/half.h:114-116 | `!x` agrees with `isZero` and holds for exactly the patterns 0x0000 and 0x8000 |
| HalfPrecision.EqualityIsRaw | tiny_dnn/util/half.h:155-160 | `==` is reflexive on every pattern, NaNs included; `!=` is its negation; `==` is pattern identity |
| HalfPrecision.SignedZerosDiffer | tiny_dnn/util/half.h:155-157 | +0 and -0 are both zero but not `==`; a NaN pattern is `==` itself |
| HalfPrecision.ClassifyConstants | tiny_dnn/util/half.h:210-230 | ±0, +inf, a quiet NaN, 1.0 and the smallest subnormal fall in their IEEE classes |
| HalfPrecision.MagnitudeZero | tiny_dnn/util/half.h:219-221 | the magnitude of a finite datum is non-negative and zero iff exponent and significand are zero |
| HalfPrecision.MagnitudeOfFields | tiny_dnn/util/half.h:219-221 | a finite pattern denotes magnitude 0 iff its exponent and significand fields are both 0 |
| HalfPrecision.ZeroIffWidenedZero | tiny_dnn/util/half.h:219-221 | the mask-based `isZero` holds iff the value the pattern denotes is 0 |
| HalfPrecision.WidenNegate | tiny_dnn/util/half.h:111-113 | the value of `-x` is the negated value of `x` (infinities swap, NaN stays NaN) |
| HalfPrecision.WidenAbs | tiny_dnn/util/half.h:240-242 | the value of `abs(x)` is the absolute value of `x`; infinities become +inf; NaN stays NaN |
| LayerCore.Chain | tiny_dnn/layers/batchnorm_layer.h:84 | the result is the successor's forward of `out` when there is a successor, otherwise `out` |
| LayerCore.Activate | tiny_dnn/layers/batchnorm_layer.h:81 | a vector of `out_size` elements with `out[i] = h_.f(a, i)` |
| LayerCore.PosInRange | tiny_dnn/layers/batchnorm_layer.h:74-77 | for `ch < channels`, `j < dim`, `pos = ch*dim + j` is below `channels*dim` and decodes back to `(ch, j)` |
| LayerCore.PosCoverage | tiny_dnn/layers/batchnorm_layer.h:74-77 | every index below `channels*dim` is `ch*dim + j` for `ch = p / dim < channels`, `j = p % dim` |
| LayerCore.PosInjective | tiny_dnn/layers/batchnorm_layer.h:74-77 | distinct `(ch, j)` pairs give distinct positions, so each one is written once |
| BatchNorm.ParamOffset | tiny_dnn/layers/batchnorm_layer.h:102-108 | statistic k of channel c is read at `channels*k + c`, below `4*channels`, decoding back to `(k, c)` |
| BatchNorm.ParamOffsetInjective | tiny_dnn/layers/batchnorm_layer.h:102-108 | no two (statistic, channel) pairs share a weight |
| BatchNorm.Normalize | tiny_dnn/layers/batchnorm_layer.h:74-79 | the pre-activation vector has `channels*dim` elements |
| BatchNorm.NormalizeAtPos | tiny_dnn/layers/batchnorm_layer.h:77 | element `ch*dim + j` is `gamma(ch)*(in[pos]-mean(ch))*invstd(ch)+beta(ch)` |
| BatchNorm.NormalizeIdentity | tiny_dnn/layers/batchnorm_layer.h:77 | with beta 0, gamma 1, mean 0 and invstd 1 in every channel the layer passes its input through |
| BatchNorm.SingleElementScenario | tiny_dnn/layers/batchnorm_layer.h:69-85 | one channel of one element, identity statistics and activation: input [2] gives output [2] |
| BatchNorm.BatchnormLayer.constructor | tiny_dnn/layers/batchnorm_layer.h:39-48 | in and out size `dim*channels`, `4*channels` weights, no bias, no successor |
| BatchNorm.BatchnormLayer.ConnectionSize | tiny_dnn/layers/batchnorm_layer.h:63 | the connection size is the input size `dim*channels` |
| BatchNorm.BatchnormLayer.FanInSize | tiny_dnn/layers/batchnorm_layer.h:65 | fan-in is one channel's element count: times the channel count it gives the connection size |
| BatchNorm.BatchnormLayer.FanOutSize | tiny_dnn/layers/batchnorm_layer.h:67 | fan-out equals fan-in |
| BatchNorm.BatchnormLayer.Beta | tiny_dnn/layers/batchnorm_layer.h:102 | `beta(c)` reads `W_[c]` |
| BatchNorm.BatchnormLayer.Gamma | tiny_dnn/layers/batchnorm_layer.h:104 | `gamma(c)` reads `W_[channels + c]` |
| BatchNorm.BatchnormLayer.Mean | tiny_dnn/layers/batchnorm_layer.h:106 | `mean(c)` reads `W_[2*channels + c]` |
| BatchNorm.BatchnormLayer.InvStd | tiny_dnn/layers/batchnorm_layer.h:108 | `invstd(c)` reads `W_[3*channels + c]` |
| BatchNorm.BatchnormLayer.ElementValue | tiny_dnn/layers/batchnorm_layer.h:76-77 | the value the loop body computes from the accessors for `(ch, j)` is element `ch*dim + j` of the pre-activation vector |
| BatchNorm.BatchnormLayer.ForwardPropagation | tiny_dnn/layers/batchnorm_layer.h:69-85 | `a_[index]` becomes the normalised input and `output_[index]` its activation; no other buffer changes; the result is chained to the successor |
| BatchNorm.BatchnormLayer.BackPropagation | tiny_dnn/layers/batchnorm_layer.h:87-90 | always fails with "Not yet implemented" |
| BatchNorm.BatchnormLayer.BackPropagation2nd | tiny_dnn/layers/batchnorm_layer.h:92-95 | always fails with "Not yet implemented" |
| BatchNorm.Metadata | tiny_dnn/layers/batchnorm_layer.h:63-67 | fan-in and fan-out are `dim`; the connection size is the input size `dim*channels` |
| LegacyBatchNorm.LegacyParamOffset | tiny_cnn/layers/batchnorm_layer.h:76-90 | statistic k of channel c is read at `in_size_*k + c`: block k of `in_size_` elements, element c of it whenever `c < in_size_` |
| LegacyBatchNorm.ReadsInBoundsIff | tiny_cnn/layers/batchnorm_layer.h:76-90 | with channels > 0, every accessor read `W_[in_size_*k + c]` is below `4*channels` iff `dim <= 1` |
| LegacyBatchNorm.MeanOutOfBounds | tiny_cnn/layers/batchnorm_layer.h:84-86 | for `dim >= 2`, `mean(0)` already reads at or past `4*channels` |
| LegacyBatchNorm.TwoElementChannelReadsPastEnd | tiny_cnn/layers/batchnorm_layer.h:84-86 | one channel of two elements: `mean(0)` reads `W_[4]` of four weights |
| LegacyBatchNorm.MatchesChannelLayoutIff | tiny_cnn/layers/batchnorm_layer.h:76-90 | the legacy reads coincide with the `channels_*k` layout exactly when `dim == 1` |
| LegacyBatchNorm.SameReadsWhenInBounds | tiny_cnn/layers/batchnorm_layer.h:76-90 | if the reads are in bounds and the loop body runs (dim > 0), then dim is 1 and each legacy accessor reads what the tiny_dnn one reads |
| LegacyBatchNorm.LegacyBatchnormLayer.constructor | tiny_cnn/layers/batchnorm_layer.h:26-28 | in and out size `dim*channels`, `4*channels` weights, no bias, no successor |
| LegacyBatchNorm.LegacyBatchnormLayer.ConnectionSize | tiny_cnn/layers/batchnorm_layer.h:30-32 | the connection size is the input size `dim*channels` |
| LegacyBatchNorm.LegacyBatchnormLayer.FanInSize | tiny_cnn/layers/batchnorm_layer.h:34-36 | fan-in is one channel's element count: times the channel count it gives the connection size |
| LegacyBatchNorm.LegacyBatchnormLayer.FanOutSize | tiny_cnn/layers/batchnorm_layer.h:38-40 | fan-out equals fan-in |
| LegacyBatchNorm.LegacyBatchnormLayer.Beta | tiny_cnn/layers/batchnorm_layer.h:76-78 | with in-bounds reads, `beta(c)` reads `W_[c]` |
| LegacyBatchNorm.LegacyBatchnormLayer.Gamma | tiny_cnn/layers/batchnorm_layer.h:80-82 | with in-bounds reads, `gamma(c)` reads `W_[in_size_ + c]` |
| LegacyBatchNorm.LegacyBatchnormLayer.Mean | tiny_cnn/layers/batchnorm_layer.h:84-86 | with in-bounds reads, `mean(c)` reads `W_[2*in_size_ + c]` |
| LegacyBatchNorm.LegacyBatchnormLayer.InvStd | tiny_cnn/layers/batchnorm_layer.h:88-90 | with in-bounds reads, `invstd(c)` reads `W_[3*in_size_ + c]` |
| LegacyBatchNorm.LegacyBatchnormLayer.ElementValue | tiny_cnn/layers/batchnorm_layer.h:48-49 | with in-bounds reads, the value the loop body computes for `(ch, j)` is the tiny_dnn pre-activation at `ch*dim + j` |
| LegacyBatchNorm.LegacyBatchnormLayer.ForwardPropagation | tiny_cnn/layers/batchnorm_layer.h:42-59 | with in-bounds reads: `a_[index]` is the tiny_dnn normalisation, `output_[index]` its activation, nothing else changes, the result is chained |
| LegacyBatchNorm.LegacyBatchnormLayer.BackPropagation | tiny_cnn/layers/batchnorm_layer.h:61-64 | always fails with "Not yet implemented" |
| LegacyBatchNorm.LegacyBatchnormLayer.BackPropagation2nd | tiny_cnn/layers/batchnorm_layer.h:66-69 | always fails with "Not yet implemented" |
| LegacyBatchNorm.Metadata | tiny_cnn/layers/batchnorm_layer.h:30-40 | fan-in and fan-out are `dim`; the connection size is the input size `dim*channels` |
| BnnThreshold.Binarize | tiny_cnn/layers/bnn_threshold_layer.h:44-52 | the output has `channels*dim` elements |
| BnnThreshold.BinarizeAt | tiny_cnn/layers/bnn_threshold_layer.h:44-51 | element `ch*dim + j` is binarised with channel ch's threshold and inversion flag |
| BnnThreshold.BinarizeValues | tiny_cnn/layers/bnn_threshold_layer.h:47-50 | every output is +1 or -1, and +1 iff `(in[pos] >= thresholds[pos/dim]) != invertOutput[pos/dim]` |
| BnnThreshold.DefaultSettings | tiny_cnn/layers/bnn_threshold_layer.h:14-19 | with the constructor's thresholds (0) and flags (false) an output is +1 iff its input is `>= 0` |
| BnnThreshold.TwoChannelScenario | tiny_cnn/layers/bnn_threshold_layer.h:44-51 | thresholds [0, 0] and inversion [false, true] map [1, 1] to [+1, -1] |
| BnnThreshold.BnnThresholdLayer.constructor | tiny_cnn/layers/bnn_threshold_layer.h:14-19 | sizes `dim*channels`, no weights or bias, `channels` zero thresholds, `channels` false flags, parallelize off |
| BnnThreshold.BnnThresholdLayer.ConnectionSize | tiny_cnn/layers/bnn_threshold_layer.h:29-31 | the connection size is the input size `dim*channels` |
| BnnThreshold.BnnThresholdLayer.FanInSize | tiny_cnn/layers/bnn_threshold_layer.h:33-35 | fan-in is one channel's element count: times the channel count it gives the connection size |
| BnnThreshold.BnnThresholdLayer.FanOutSize | tiny_cnn/layers/bnn_threshold_layer.h:37-39 | fan-out equals fan-in |
| BnnThreshold.BnnThresholdLayer.ForwardPropagation | tiny_cnn/layers/bnn_threshold_layer.h:41-55 | `output_[index]` becomes the binarised input and no other buffer changes; the result is chained to the successor |
| BnnThreshold.BnnThresholdLayer.BackPropagation | tiny_cnn/layers/bnn_threshold_layer.h:57-60 | always fails with "Not yet implemented" |
| BnnThreshold.BnnThresholdLayer.BackPropagation2nd | tiny_cnn/layers/bnn_threshold_layer.h:62-65 | always fails with "Not yet implemented" |
| BnnThreshold.Metadata | tiny_cnn/layers/bnn_threshold_layer.h:29-39 | fan-in and fan-out are `dim`; the connection size is the input size; no weights or bias |
| OpKernel.ZerosLike | tiny_dnn/core/kernels/fully_connected_op.h:76-79 | the buffer keeps the shape it had and every element is 0 |
| OpKernel.ZerosLikeShapeOnly | tiny_dnn/core/kernels/fully_connected_grad_op.h:76-81 | zeroing does not depend on what the buffer held, only on its shape |
| FullyConnected.ForwardKernelFor | tiny_dnn/core/kernels/fully_connected_op.h:85-102 | internal, nnpack and avx each select their own kernel, and an engine has a kernel iff it is one of those three |
| FullyConnected.BiasArgument | tiny_dnn/core/kernels/fully_connected_op.h:73-74 | the bias argument is row 0 of `input(2)` with a bias and empty without one |
| FullyConnected.FullyConnectedOp.constructor | tiny_dnn/core/kernels/fully_connected_op.h:64-65 | the op keeps its layer parameters and kernels |
| FullyConnected.FullyConnectedOp.Compute | tiny_dnn/core/kernels/fully_connected_op.h:67-104 | succeeds iff the engine has a kernel; on success only `output(0)` changes, to the selected kernel's result on the inputs, weight row 0, the bias argument and a zeroed copy of `output(0)`; otherwise "Not supported engine" and the context is unchanged |
| FullyConnectedGrad.GradKernelFor | tiny_dnn/core/kernels/fully_connected_grad_op.h:87-97 | internal and avx select their own kernel, and only those two engines have one |
| FullyConnectedGrad.EngineCoverage | tiny_dnn/core/kernels/fully_connected_grad_op.h:87-97 | every engine with a gradient kernel has a forward kernel; nnpack is the only engine with a forward kernel but no gradient kernel |
| FullyConnectedGrad.BiasGradArgument | tiny_dnn/core/kernels/fully_connected_grad_op.h:73-75 | the bias-gradient argument is `input_grad(2)` as it stands with a bias, an empty dummy without one |
| FullyConnectedGrad.WriteBack | tiny_dnn/core/kernels/fully_connected_grad_op.h:98-101 | slots 0 and 1 take the kernel's `prev_delta` and `dW`; slot 2 takes `dB` iff there is a bias; every other slot is untouched |
| FullyConnectedGrad.FullyConnectedGradOp.constructor | tiny_dnn/core/kernels/fully_connected_grad_op.h:63-64 | the op keeps its layer parameters and kernels |
| FullyConnectedGrad.FullyConnectedGradOp.Compute | tiny_dnn/core/kernels/fully_connected_grad_op.h:66-102 | succeeds iff the engine is internal or avx; the kernel gets `dW` and `dB` with their current contents and a zeroed `prev_delta`; only the gradient slots change, as `WriteBack` says; otherwise "Not supported engine" and the context is unchanged |
| GlobalAvePoolGrad.AvePoolKernelFor | tiny_dnn/core/kernels/global_avepool_grad_op.h:33-41 | avx selects the AVX kernel when the build has AVX support and none without it; every other engine falls back to the internal kernel |
| GlobalAvePoolGrad.AvxWithoutSupportIsZero | tiny_dnn/core/kernels/global_avepool_grad_op.h:33-42 | with engine avx and no AVX support the written-back gradient is all zeros, shaped like the old one |
| GlobalAvePoolGrad.GlobalAvePoolGradOp.constructor | tiny_dnn/core/kernels/global_avepool_grad_op.h:18-19 | the op keeps its kernels and the build's AVX setting |
| GlobalAvePoolGrad.GlobalAvePoolGradOp.Compute | tiny_dnn/core/kernels/global_avepool_grad_op.h:21-43 | never fails; `input_grad(0)` becomes the selected kernel's update of a zero-filled copy (or stays zero-filled), and it is the only slot that changes |

## Left out

- Float arithmetic in `half`: construction from `float` through the F16C conversion, `operator double`, `+ - * /` and the compound assignments, the ordering comparisons, `&&`/`||`, `exp`/`sqrt`/`log`, the stream operators and the `_h` literal. These are hardware floating-point numerics. `Widen` gives exact values only as a reference.
- HalfPrecision: `uint_least16_t` is taken to be exactly 16 bits wide.
- The layers' element values are `real`. `float_t` rounding in the batch normalisation formula is not modelled.
- BnnThreshold.Binary: compares the input with the `int` threshold converted exactly (`as real`). The source converts the threshold to `float_t`, which can round thresholds beyond 2^24 in magnitude.
- The constructors' default argument `dim = 1` is left out. Every model constructor takes `dim` explicitly; the default is the call with `dim` set to 1.
- `batchnorm_layer::loadFromBinaryFile`: binary file I/O.
- `CNN_LOG_VECTOR` logging is left out.
- `layer_type()` names are left out: they are constant strings.
- `for_i` runs the channel and element loops in parallel when `parallelize_` is set. The model runs them sequentially; each iteration writes distinct positions (`LayerCore.PosInjective`).
- The successor's forward propagation is a pure function of the output here. Its effects on the successor's own buffers are not modelled.
- The base layer is not part of this model. That covers buffer allocation (`a_` and `output_` are sized `in_size`/`out_size` by the model's constructors), the initial `parallelize_` of the batch normalisation layers, and the layer's activation object.
- The index arithmetic in `unsigned int`/`size_t` is taken not to wrap. Sizes are `nat`s.
- The numeric kernels (`fully_connected_op_internal/avx/nnpack`, `global_avepool_grad_op_internal/avx`) are uninterpreted function parameters. The global average pooling parameters are bound into them.
- `to_xtensor`/`from_xtensor`/`xt::view` and `Tensor<>` are left out: tensors are `seq<seq<real>>`. Both operators pass on only row 0 of the weight (`xt::view(W, 0, xt::all())`). The forward operator also passes on only row 0 of the bias, while the gradient operator passes `input_grad(2)` whole.
- The file defining `backend_t` is not part of this model. `Backend` lists internal, nnpack, libdnn, avx and opencl, and every contract treats the engines other than those a dispatcher names uniformly.
- `CNN_USE_AVX` is the constant `avxEnabled` of the global average pooling op.
- `OpKernelContext` holds only the slots the dispatchers touch.
- LegacyBatchNorm.LegacyBatchnormLayer.ForwardPropagation: requires every accessor read to lie inside `W_`. A read past the end of `W_` is undefined behaviour in the source, so the model has no value to give it. The Findings section shows when that happens.
- LegacyBatchNorm.LegacyBatchnormLayer.Beta, Gamma, Mean and InvStd carry the same requirement.
- The offloaded layer and the CIFAR-10 training driver are left out: a foreign-function seam, and I/O and driver code.

## Findings

| source | as written | input that shows it | evidently intended | confidence | as-written member | corrected member |
|---|---|---|---|---|---|---|
| tiny_cnn/layers/batchnorm_layer.h:76-90 | statistic k of channel c is read at `W_[in_size_*k + c]`, with `in_size_ = dim*channels`, while the layer owns `4*channels` weights | channels = 1, dim = 2: `mean(0)` reads `W_[4]` of a 4-element `W_` | `W_[channels_*k + c]`, as the tiny_dnn layer reads it | not executed | LegacyBatchNorm.TwoElementChannelReadsPastEnd | BatchNorm.ParamOffset |
