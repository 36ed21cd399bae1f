/**
 * `FullyConnectedOp::compute`: the forward dispatcher of the fully-connected
 * layer. It zeroes the output buffer, runs the kernel of the selected engine
 * on it and stores the result in output slot 0; engines without a kernel
 * raise "Not supported engine" and leave the context as it was.
 */
module FullyConnected {
  import opened LayerCore
  import opened OpKernel

  /** `params_->fully()`, as far as the dispatcher reads it. */
  datatype FullyParams = FullyParams(inSize: nat, outSize: nat, hasBias: bool)

  /** A forward kernel: (in_data, W row 0, bias, zeroed out_data, params, parallelize) to out_data. */
  type ForwardKernel = (Tensor, seq<real>, seq<real>, Tensor, FullyParams, bool) -> Tensor

  /** The three backend implementations, whose code is not part of this model. */
  datatype ForwardKernels = ForwardKernels(internal: ForwardKernel, nnpack: ForwardKernel, avx: ForwardKernel)

  /** The engines the forward op has a kernel for. */
  predicate ForwardSupported(e: Backend) {
    e == Internal || e == Nnpack || e == Avx
  }

  /** Which kernel an engine runs, if any. */
  function ForwardKernelFor(k: ForwardKernels, e: Backend): (r: Option<ForwardKernel>)
    ensures r.Some? <==> ForwardSupported(e)
    ensures e == Internal ==> r == Some(k.internal)
    ensures e == Nnpack ==> r == Some(k.nnpack)
    ensures e == Avx ==> r == Some(k.avx)
  {
    match e
    case Internal => Some(k.internal)
    case Nnpack => Some(k.nnpack)
    case Avx => Some(k.avx)
    case _ => None
  }

  /** The bias argument: row 0 of input(2) with a bias, an empty array without one. */
  function BiasArgument(params: FullyParams, inputs: seq<Tensor>): (b: seq<real>)
    requires params.hasBias ==> |inputs| >= 3 && |inputs[2]| > 0
    ensures params.hasBias ==> b == inputs[2][0]
    ensures !params.hasBias ==> b == []
  {
    if params.hasBias then inputs[2][0] else []
  }

  class FullyConnectedOp {
    const params: FullyParams
    const kernels: ForwardKernels

    constructor (params: FullyParams, kernels: ForwardKernels)
      ensures this.params == params && this.kernels == kernels
    {
      this.params := params;
      this.kernels := kernels;
    }

    method Compute(context: OpKernelContext) returns (r: Result<()>)
      requires |context.inputs| >= 2 && |context.outputs| >= 1
      requires params.hasBias ==> |context.inputs| >= 3
      requires ForwardSupported(context.engine) ==>
        |context.inputs[1]| > 0 && (params.hasBias ==> |context.inputs[2]| > 0)
      modifies context
      ensures r.Success? <==> ForwardSupported(context.engine)
      ensures r.Failure? ==> r.error == NotSupportedEngine && unchanged(context)
      ensures r.Success? ==>
        var kernel := ForwardKernelFor(kernels, context.engine).value;
        var out := kernel(old(context.inputs[0]), old(context.inputs[1][0]),
                          BiasArgument(params, old(context.inputs)),
                          ZerosLike(old(context.outputs[0])), params, context.parallelize);
        && context.outputs == old(context.outputs)[0 := out]
        && context.inputs == old(context.inputs)
        && context.inputGrads == old(context.inputGrads)
        && context.outputGrads == old(context.outputGrads)
    {
      var inData := context.inputs[0];
      var w := context.inputs[1];
      var b: Tensor := if params.hasBias then context.inputs[2] else [];

      var outData := context.outputs[0];
      outData := ZerosLike(outData);

      var engine := context.engine;
      if engine == Internal {
        outData := kernels.internal(inData, w[0], if params.hasBias then b[0] else [],
                                    outData, params, context.parallelize);
      } else if engine == Nnpack {
        outData := kernels.nnpack(inData, w[0], if params.hasBias then b[0] else [],
                                  outData, params, context.parallelize);
      } else if engine == Avx {
        outData := kernels.avx(inData, w[0], if params.hasBias then b[0] else [],
                               outData, params, context.parallelize);
      } else {
        return Failure(NotSupportedEngine);
      }
      context.outputs := context.outputs[0 := outData];
      r := Success(());
    }
  }
}
