/**
 * `FullyConnectedGradOp::compute`: the backward dispatcher of the
 * fully-connected layer. It zeroes `prev_delta`, hands the weight and bias
 * gradients to the kernel with their current contents (the kernel
 * accumulates into them) and writes back gradient slots 0, 1 and, with a
 * bias, 2. Only the internal and AVX engines have a gradient kernel.
 */
module FullyConnectedGrad {
  import opened LayerCore
  import opened OpKernel
  import opened FullyConnected

  /** The three buffers a gradient kernel updates in place. */
  datatype Gradients = Gradients(prevDelta: Tensor, dW: Tensor, dB: Tensor)

  /**
   * A gradient kernel: (prev_out, W row 0, dW, dB or a dummy, curr_delta,
   * zeroed prev_delta, params, parallelize) to the updated buffers.
   */
  type GradKernel = (Tensor, seq<real>, Tensor, Tensor, Tensor, Tensor, FullyParams, bool) -> Gradients

  datatype GradKernels = GradKernels(internal: GradKernel, avx: GradKernel)

  /** The engines the gradient op has a kernel for. */
  predicate GradSupported(e: Backend) {
    e == Internal || e == Avx
  }

  /** Which kernel an engine runs, if any. */
  function GradKernelFor(k: GradKernels, e: Backend): (r: Option<GradKernel>)
    ensures r.Some? <==> GradSupported(e)
    ensures e == Internal ==> r == Some(k.internal)
    ensures e == Avx ==> r == Some(k.avx)
  {
    match e
    case Internal => Some(k.internal)
    case Avx => Some(k.avx)
    case _ => None
  }

  /**
   * Every engine with a gradient kernel also has a forward kernel, and NNPACK
   * is the one engine with a forward kernel but none for the gradient.
   */
  lemma EngineCoverage(e: Backend)
    ensures GradSupported(e) ==> ForwardSupported(e)
    ensures (ForwardSupported(e) && !GradSupported(e)) <==> e == Nnpack
  {
  }

  /** The bias-gradient argument: `input_grad(2)` with a bias, else an empty dummy. */
  function BiasGradArgument(params: FullyParams, inputGrads: seq<Tensor>): (d: Tensor)
    requires params.hasBias ==> |inputGrads| >= 3
    ensures params.hasBias ==> d == inputGrads[2]
    ensures !params.hasBias ==> d == []
  {
    if params.hasBias then inputGrads[2] else []
  }

  /**
   * The gradient slots after a successful call: slot 0 and 1 from the kernel,
   * slot 2 from the kernel with a bias and untouched without one.
   */
  function WriteBack(params: FullyParams, inputGrads: seq<Tensor>, g: Gradients): (s: seq<Tensor>)
    requires |inputGrads| >= 2 && (params.hasBias ==> |inputGrads| >= 3)
    ensures |s| == |inputGrads|
    ensures s[0] == g.prevDelta && s[1] == g.dW
    ensures params.hasBias ==> s[2] == g.dB
    ensures forall i :: 2 <= i < |s| && !(params.hasBias && i == 2) ==> s[i] == inputGrads[i]
  {
    var s := inputGrads[0 := g.prevDelta][1 := g.dW];
    if params.hasBias then s[2 := g.dB] else s
  }

  class FullyConnectedGradOp {
    const params: FullyParams
    const kernels: GradKernels

    constructor (params: FullyParams, kernels: GradKernels)
      ensures this.params == params && this.kernels == kernels
    {
      this.params := params;
      this.kernels := kernels;
    }

    method Compute(context: OpKernelContext) returns (r: Result<()>)
      requires |context.inputs| >= 2 && (GradSupported(context.engine) ==> |context.inputs[1]| > 0)
      requires |context.inputGrads| >= 2 && |context.outputGrads| >= 1
      requires params.hasBias ==> |context.inputGrads| >= 3
      modifies context
      ensures r.Success? <==> GradSupported(context.engine)
      ensures r.Failure? ==> r.error == NotSupportedEngine && unchanged(context)
      ensures r.Success? ==>
        var kernel := GradKernelFor(kernels, context.engine).value;
        var g := kernel(old(context.inputs[0]), old(context.inputs[1][0]),
                        old(context.inputGrads[1]), BiasGradArgument(params, old(context.inputGrads)),
                        old(context.outputGrads[0]), ZerosLike(old(context.inputGrads[0])),
                        params, context.parallelize);
        && context.inputGrads == WriteBack(params, old(context.inputGrads), g)
        && context.inputs == old(context.inputs)
        && context.outputs == old(context.outputs)
        && context.outputGrads == old(context.outputGrads)
    {
      var prevOut := context.inputs[0];
      var w := context.inputs[1];
      var dW := context.inputGrads[1];
      var dB: Tensor := if params.hasBias then context.inputGrads[2] else [];
      var prevDelta := context.inputGrads[0];
      var currDelta := context.outputGrads[0];
      var dummy: Tensor := [];

      prevDelta := ZerosLike(prevDelta);

      var engine := context.engine;
      var g: Gradients;
      if engine == Internal {
        g := kernels.internal(prevOut, w[0], dW, if params.hasBias then dB else dummy,
                              currDelta, prevDelta, params, context.parallelize);
      } else if engine == Avx {
        g := kernels.avx(prevOut, w[0], dW, if params.hasBias then dB else dummy,
                         currDelta, prevDelta, params, context.parallelize);
      } else {
        return Failure(NotSupportedEngine);
      }
      context.inputGrads := context.inputGrads[0 := g.prevDelta];
      context.inputGrads := context.inputGrads[1 := g.dW];
      if params.hasBias {
        context.inputGrads := context.inputGrads[2 := g.dB];
      }
      r := Success(());
    }
  }
}
