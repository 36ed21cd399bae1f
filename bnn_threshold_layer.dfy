/**
 * tiny_cnn's binarising threshold layer: element j of channel ch becomes +1
 * when it reaches the channel's threshold and -1 otherwise, negated when the
 * channel's inversion flag is set. Inference only; always sequential.
 */
module BnnThreshold {
  import opened LayerCore

  /** The value the layer writes for one element, as an if-and-only-if. */
  function Binary(x: real, threshold: int, invert: bool): real {
    if (x >= threshold as real) != invert then 1.0 else -1.0
  }

  /** The whole output: element p is binarised with the settings of channel p / dim. */
  function Binarize(input: seq<real>, thresholds: seq<int>, invert: seq<bool>,
                    channels: nat, dim: nat): (out: seq<real>)
    requires |input| == channels * dim && |thresholds| >= channels && |invert| >= channels
    ensures |out| == channels * dim
  {
    seq(channels * dim, p requires 0 <= p < channels * dim =>
      PosCoverage(p, dim, channels);
      Binary(input[p], thresholds[p / dim], invert[p / dim]))
  }

  /** Element j of channel ch: +1 iff (in >= threshold) differs from the inversion flag. */
  lemma BinarizeAt(input: seq<real>, thresholds: seq<int>, invert: seq<bool>,
                   channels: nat, dim: nat, ch: nat, j: nat)
    requires |input| == channels * dim && |thresholds| >= channels && |invert| >= channels
    requires ch < channels && j < dim
    ensures Pos(ch, j, dim) < channels * dim
    ensures Binarize(input, thresholds, invert, channels, dim)[Pos(ch, j, dim)] ==
            Binary(input[Pos(ch, j, dim)], thresholds[ch], invert[ch])
  {
    PosInRange(ch, j, dim, channels);
  }

  /** Every output element is +1 or -1, and +1 exactly under the threshold rule. */
  lemma BinarizeValues(input: seq<real>, thresholds: seq<int>, invert: seq<bool>,
                       channels: nat, dim: nat, p: nat)
    requires |input| == channels * dim && |thresholds| >= channels && |invert| >= channels
    requires p < channels * dim
    ensures p / dim < channels
    ensures var out := Binarize(input, thresholds, invert, channels, dim);
      (out[p] == 1.0 || out[p] == -1.0) &&
      (out[p] == 1.0 <==> (input[p] >= thresholds[p / dim] as real) != invert[p / dim])
  {
    PosCoverage(p, dim, channels);
  }

  /** With the constructor's settings (threshold 0, no inversion) the output is +1 iff in >= 0. */
  lemma DefaultSettings(input: seq<real>, channels: nat, dim: nat, p: nat)
    requires |input| == channels * dim && p < channels * dim
    ensures Binarize(input, seq(channels, _ => 0), seq(channels, _ => false), channels, dim)[p] == 1.0
            <==> input[p] >= 0.0
  {
    PosCoverage(p, dim, channels);
  }

  /** Two channels, thresholds [0, 0], inversion [false, true]: input [1, 1] gives [+1, -1]. */
  lemma TwoChannelScenario()
    ensures Binarize([1.0, 1.0], [0, 0], [false, true], 2, 1) == [1.0, -1.0]
  {
    var out := Binarize([1.0, 1.0], [0, 0], [false, true], 2, 1);
    BinarizeAt([1.0, 1.0], [0, 0], [false, true], 2, 1, 0, 0);
    BinarizeAt([1.0, 1.0], [0, 0], [false, true], 2, 1, 1, 0);
    assert out[0] == 1.0 && out[1] == -1.0;
  }

  class BnnThresholdLayer {
    const channels: nat
    const dim: nat
    const inSize: nat
    const outSize: nat
    const weightCount: nat
    const biasCount: nat

    /**
     * `thresholds()` and `invertOutput()` hand out references to these
     * vectors, so callers may read and replace them freely.
     */
    var thresholds: seq<int>
    var invertOutput: seq<bool>
    var output: seq<seq<real>>
    var next: Successor
    var parallelize: bool

    ghost predicate Valid()
      reads this
    {
      && inSize == dim * channels && outSize == inSize
      && weightCount == 0 && biasCount == 0
      && (forall k :: 0 <= k < |output| ==> |output[k]| == outSize)
    }

    /** `bnn_threshold_layer(channels, dim)`; `samples` is the number of output buffers. */
    constructor (channels: nat, dim: nat, samples: nat)
      ensures Valid()
      ensures this.channels == channels && this.dim == dim
      ensures inSize == dim * channels && outSize == dim * channels
      ensures weightCount == 0 && biasCount == 0
      ensures thresholds == seq(channels, _ => 0)
      ensures invertOutput == seq(channels, _ => false)
      ensures !parallelize && |output| == samples && next.None?
    {
      this.channels := channels;
      this.dim := dim;
      inSize := dim * channels;
      outSize := dim * channels;
      weightCount := 0;
      biasCount := 0;
      thresholds := seq(channels, _ => 0);
      invertOutput := seq(channels, _ => false);
      output := seq(samples, _ => seq(dim * channels, _ => 0.0));
      next := None;
      parallelize := false;  // set_parallelize(false)
    }

    function ConnectionSize(): (r: nat)
      reads this
      ensures Valid() ==> r == dim * channels
    {
      inSize
    }

    function FanInSize(): (r: nat)
      reads this
      ensures Valid() ==> r * channels == ConnectionSize()
    {
      dim
    }

    function FanOutSize(): (r: nat)
      reads this
      ensures r == FanInSize()
    {
      dim
    }

    /**
     * Writes +1 or -1 into every slot of `output_[index]`, channel by channel,
     * negating the slot afterwards when the channel's flag is set.
     */
    method ForwardPropagation(input: seq<real>, index: nat) returns (r: seq<real>)
      requires Valid()
      requires |input| == inSize && index < |output|
      requires |thresholds| >= channels && |invertOutput| >= channels
      modifies this`output
      ensures Valid()
      ensures output == old(output)[index := Binarize(input, thresholds, invertOutput, channels, dim)]
      ensures r == Chain(next, output[index])
    {
      ghost var b := Binarize(input, thresholds, invertOutput, channels, dim);
      var out := output[index];  // vec_t &out = output_[index]
      var ch := 0;
      while ch < channels
        invariant 0 <= ch <= channels && |out| == outSize
        invariant output == old(output)
        invariant forall p :: 0 <= p < ch * dim ==> out[p] == b[p]
      {
        ghost var start := ch * dim;
        assert start + dim <= outSize by {
          assert start + dim == (ch + 1) * dim;
          MulMono(ch + 1, channels, dim);
        }
        var j := 0;
        while j < dim
          invariant 0 <= j <= dim && |out| == outSize && start + dim <= outSize
          invariant output == old(output)
          invariant forall p :: 0 <= p < start + j ==> out[p] == b[p]
        {
          var pos := ch * dim + j;
          BinarizeAt(input, thresholds, invertOutput, channels, dim, ch, j);
          out := out[pos := if input[pos] >= thresholds[ch] as real then 1.0 else -1.0];
          if invertOutput[ch] {
            out := out[pos := -out[pos]];
          }
          j := j + 1;
        }
        assert start + dim == (ch + 1) * dim;
        ch := ch + 1;
      }
      assert out == b;
      output := output[index := out];
      r := Chain(next, output[index]);
    }

    method BackPropagation(currDelta: seq<real>, index: nat) returns (r: Result<seq<real>>)
      ensures r == Failure(NotYetImplemented)
    {
      r := Failure(NotYetImplemented);
    }

    method BackPropagation2nd(currentDelta2: seq<real>) returns (r: Result<seq<real>>)
      ensures r == Failure(NotYetImplemented)
    {
      r := Failure(NotYetImplemented);
    }
  }

  lemma Metadata(l: BnnThresholdLayer)
    requires l.Valid()
    ensures l.FanInSize() == l.FanOutSize() == l.dim
    ensures l.ConnectionSize() == l.inSize == l.FanInSize() * l.channels
    ensures l.inSize == l.outSize && l.weightCount == 0 && l.biasCount == 0
  {
  }
}
