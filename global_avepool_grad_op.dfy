/**
 * `GlobalAvePoolGradOp::compute`: the backward dispatcher of global average
 * pooling. It zero-fills `prev_delta`, lets the AVX kernel (engine avx) or the
 * internal kernel (every other engine) update it, and writes it back to
 * gradient slot 0. It never rejects an engine.
 */
module GlobalAvePoolGrad {
  import opened LayerCore
  import opened OpKernel

  /**
   * A gradient kernel: (zeroed prev_delta, curr_delta, parallelize) to the
   * updated prev_delta. The pooling parameters are bound into the kernel.
   */
  type AvePoolKernel = (Tensor, Tensor, bool) -> Tensor

  datatype AvePoolKernels = AvePoolKernels(internal: AvePoolKernel, avx: AvePoolKernel)

  /**
   * The kernel an engine runs: AVX for avx when the build has AVX support
   * (`CNN_USE_AVX`), none for avx without it, internal for every other engine.
   */
  function AvePoolKernelFor(k: AvePoolKernels, e: Backend, avxEnabled: bool): (r: Option<AvePoolKernel>)
    ensures r.None? <==> e == Avx && !avxEnabled
    ensures e == Avx && avxEnabled ==> r == Some(k.avx)
    ensures e != Avx ==> r == Some(k.internal)
  {
    if e == Avx then (if avxEnabled then Some(k.avx) else None) else Some(k.internal)
  }

  /** What slot 0 holds afterwards: zeros, updated by the selected kernel if there is one. */
  function PrevDeltaAfter(kernel: Option<AvePoolKernel>, prevDelta: Tensor, currDelta: Tensor,
                          parallelize: bool): Tensor
  {
    match kernel
    case None => ZerosLike(prevDelta)
    case Some(f) => f(ZerosLike(prevDelta), currDelta, parallelize)
  }

  /** With engine avx in a build without AVX support the gradient is all zeros, shaped like the old one. */
  lemma AvxWithoutSupportIsZero(k: AvePoolKernels, prevDelta: Tensor, currDelta: Tensor, parallelize: bool)
    ensures var d := PrevDeltaAfter(AvePoolKernelFor(k, Avx, false), prevDelta, currDelta, parallelize);
      |d| == |prevDelta| &&
      (forall i :: 0 <= i < |d| ==> |d[i]| == |prevDelta[i]|) &&
      (forall i, j :: 0 <= i < |d| && 0 <= j < |d[i]| ==> d[i][j] == 0.0)
  {
  }

  class GlobalAvePoolGradOp {
    const kernels: AvePoolKernels
    /** Whether the build defines `CNN_USE_AVX`. */
    const avxEnabled: bool

    constructor (kernels: AvePoolKernels, avxEnabled: bool)
      ensures this.kernels == kernels && this.avxEnabled == avxEnabled
    {
      this.kernels := kernels;
      this.avxEnabled := avxEnabled;
    }

    method Compute(context: OpKernelContext)
      requires |context.inputGrads| >= 1 && |context.outputGrads| >= 1
      modifies context
      ensures context.inputGrads ==
        old(context.inputGrads)[0 := PrevDeltaAfter(AvePoolKernelFor(kernels, context.engine, avxEnabled),
                                                    old(context.inputGrads[0]), old(context.outputGrads[0]),
                                                    context.parallelize)]
      ensures context.inputs == old(context.inputs) && context.outputs == old(context.outputs)
      ensures context.outputGrads == old(context.outputGrads)
    {
      var prevDelta := context.inputGrads[0];
      var currDelta := context.outputGrads[0];

      prevDelta := ZerosLike(prevDelta);

      var engine := context.engine;
      if engine == Avx {
        if avxEnabled {
          prevDelta := kernels.avx(prevDelta, currDelta, context.parallelize);
        }
      } else {
        prevDelta := kernels.internal(prevDelta, currDelta, context.parallelize);
      }
      context.inputGrads := context.inputGrads[0 := prevDelta];
    }
  }
}
