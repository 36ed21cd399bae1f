/**
 * What the kernel dispatchers share: the engine enumeration, the buffers they
 * exchange and the context one kernel invocation reads and writes.
 */
module OpKernel {

  /** `core::backend_t`. */
  datatype Backend = Internal | Nnpack | Libdnn | Avx | Opencl

  /** `tensor_t`: a sequence of rows (`vec_t`). */
  type Tensor = seq<seq<real>>

  /** A tensor of zeros with the shape of `t` (`xt::zeros(t.shape())`, `fill(0)`). */
  function ZerosLike(t: Tensor): (z: Tensor)
    ensures |z| == |t|
    ensures forall i :: 0 <= i < |z| ==> |z[i]| == |t[i]|
    ensures forall i, j :: 0 <= i < |z| && 0 <= j < |z[i]| ==> z[i][j] == 0.0
  {
    seq(|t|, i requires 0 <= i < |t| => seq(|t[i]|, _ => 0.0))
  }

  /** Zeroing depends only on the shape: whatever a buffer held, it is reset the same way. */
  lemma ZerosLikeShapeOnly(s: Tensor, t: Tensor)
    requires |s| == |t| && forall i :: 0 <= i < |s| ==> |s[i]| == |t[i]|
    ensures ZerosLike(s) == ZerosLike(t)
  {
    var zs, zt := ZerosLike(s), ZerosLike(t);
    forall i | 0 <= i < |s|
      ensures zs[i] == zt[i]
    {
      assert |zs[i]| == |zt[i]|;
    }
  }

  /**
   * `core::OpKernelContext` as far as the dispatchers use it: numbered input,
   * output and gradient slots, the selected engine and the parallelisation flag.
   */
  class OpKernelContext {
    var inputs: seq<Tensor>
    var outputs: seq<Tensor>
    var inputGrads: seq<Tensor>
    var outputGrads: seq<Tensor>
    const engine: Backend
    const parallelize: bool

    constructor (inputs: seq<Tensor>, outputs: seq<Tensor>, inputGrads: seq<Tensor>,
                 outputGrads: seq<Tensor>, engine: Backend, parallelize: bool)
      ensures this.inputs == inputs && this.outputs == outputs
      ensures this.inputGrads == inputGrads && this.outputGrads == outputGrads
      ensures this.engine == engine && this.parallelize == parallelize
    {
      this.inputs := inputs;
      this.outputs := outputs;
      this.inputGrads := inputGrads;
      this.outputGrads := outputGrads;
      this.engine := engine;
      this.parallelize := parallelize;
    }
  }
}
