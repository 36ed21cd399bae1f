/**
 * The older tiny_cnn batch normalisation layer. Sizes, loops and formula are
 * those of the tiny_dnn layer, but its four statistic accessors offset the
 * weight vector by `in_size_ * k` instead of `channels_ * k`, so the weight
 * reads stay inside the `4 * channels` weights only when `dim <= 1`.
 */
module LegacyBatchNorm {
  import opened LayerCore
  import BatchNorm

  /** Index the accessors read for statistic k of channel c: `W_[(in_size_ * k) + ind]`. */
  function LegacyParamOffset(inSize: nat, k: nat, c: nat): (i: nat)
    ensures c < inSize ==> i / inSize == k && i % inSize == c
  {
    if c < inSize then
      (DivModUnique(inSize * k + c, inSize, k, c); inSize * k + c)
    else
      inSize * k + c
  }

  /** Every accessor read, over every channel, falls inside a vector of n weights. */
  ghost predicate ReadsInBounds(channels: nat, dim: nat, n: nat) {
    forall k, c :: 0 <= k < 4 && 0 <= c < channels ==> LegacyParamOffset(dim * channels, k, c) < n
  }

  /** With at least one channel, the reads are in bounds iff dim <= 1. */
  lemma {:induction false} ReadsInBoundsIff(channels: nat, dim: nat)
    requires channels > 0
    ensures ReadsInBounds(channels, dim, 4 * channels) <==> dim <= 1
  {
    if dim <= 1 {
      forall k, c | 0 <= k < 4 && 0 <= c < channels
        ensures LegacyParamOffset(dim * channels, k, c) < 4 * channels
      {
        if dim == 1 {
          assert LegacyParamOffset(dim * channels, k, c) == BatchNorm.ParamOffset(channels, k, c);
        }
      }
    } else {
      MeanOutOfBounds(channels, dim);
    }
  }

  /** For dim >= 2 already `mean(0)` reads past the end of the weights. */
  lemma MeanOutOfBounds(channels: nat, dim: nat)
    requires channels > 0 && dim >= 2
    ensures LegacyParamOffset(dim * channels, 2, 0) >= 4 * channels
  {
    MulMono(2, dim, channels);
  }

  /** Concretely: one channel of two elements, and `mean(0)` reads W_[4] of a 4-weight vector. */
  lemma TwoElementChannelReadsPastEnd()
    ensures LegacyParamOffset(2 * 1, 2, 0) == 4
    ensures !ReadsInBounds(1, 2, 4)
  {
    assert LegacyParamOffset(2 * 1, 2, 0) == 4;
  }

  /** The legacy accessors read what the tiny_dnn accessors read exactly when dim == 1. */
  lemma {:induction false} MatchesChannelLayoutIff(channels: nat, dim: nat)
    requires channels > 0
    ensures (forall k, c :: 0 <= k < 4 && 0 <= c < channels ==>
              LegacyParamOffset(dim * channels, k, c) == BatchNorm.ParamOffset(channels, k, c))
            <==> dim == 1
  {
    if dim != 1 {
      assert LegacyParamOffset(dim * channels, 1, 0) != BatchNorm.ParamOffset(channels, 1, 0);
    }
  }

  class LegacyBatchnormLayer {
    const channels: nat
    const dim: nat
    const inSize: nat
    const outSize: nat
    const weightCount: nat
    const biasCount: nat
    /** The activation `h_` of the template parameter `Activation`. */
    const act: Activation

    var W: seq<real>
    var a: seq<seq<real>>
    var output: seq<seq<real>>
    var next: Successor
    var parallelize: bool

    ghost predicate Valid()
      reads this
    {
      && inSize == dim * channels && outSize == inSize
      && weightCount == 4 * channels && biasCount == 0
      && |W| == weightCount
      && |a| == |output|
      && (forall k :: 0 <= k < |a| ==> |a[k]| == inSize)
      && (forall k :: 0 <= k < |output| ==> |output[k]| == outSize)
    }

    /** `batchnorm_layer(channels, dim)`; `samples` is the number of per-sample buffers. */
    constructor (channels: nat, dim: nat, act: Activation, samples: nat)
      ensures Valid()
      ensures this.channels == channels && this.dim == dim && this.act == act
      ensures inSize == dim * channels && outSize == dim * channels
      ensures weightCount == 4 * channels && biasCount == 0
      ensures |a| == samples && next.None?
    {
      this.channels := channels;
      this.dim := dim;
      this.act := act;
      inSize := dim * channels;
      outSize := dim * channels;
      weightCount := 4 * channels;
      biasCount := 0;
      W := seq(4 * channels, _ => 0.0);
      a := seq(samples, _ => seq(dim * channels, _ => 0.0));
      output := seq(samples, _ => seq(dim * channels, _ => 0.0));
      next := None;
      // parallelize_ keeps the base layer's initial value, which is not part of this model
    }

    function ConnectionSize(): (r: nat)
      reads this
      ensures Valid() ==> r == dim * channels
    {
      inSize
    }

    function FanInSize(): (r: nat)
      reads this
      ensures Valid() ==> r * channels == ConnectionSize()
    {
      dim
    }

    function FanOutSize(): (r: nat)
      reads this
      ensures r == FanInSize()
    {
      dim
    }

    function Beta(c: nat): (r: real)
      reads this
      requires Valid() && c < channels && ReadsInBounds(channels, dim, |W|)
      ensures c < |W| && r == W[c]
    {
      W[LegacyParamOffset(inSize, 0, c)]
    }

    function Gamma(c: nat): (r: real)
      reads this
      requires Valid() && c < channels && ReadsInBounds(channels, dim, |W|)
      ensures inSize + c < |W| && r == W[inSize + c]
    {
      W[LegacyParamOffset(inSize, 1, c)]
    }

    function Mean(c: nat): (r: real)
      reads this
      requires Valid() && c < channels && ReadsInBounds(channels, dim, |W|)
      ensures 2 * inSize + c < |W| && r == W[2 * inSize + c]
    {
      W[LegacyParamOffset(inSize, 2, c)]
    }

    function InvStd(c: nat): (r: real)
      reads this
      requires Valid() && c < channels && ReadsInBounds(channels, dim, |W|)
      ensures 3 * inSize + c < |W| && r == W[3 * inSize + c]
    {
      W[LegacyParamOffset(inSize, 3, c)]
    }

    /**
     * The same two loops as the tiny_dnn layer. The accessor reads are only
     * defined when they stay inside `W_`; then the result is the tiny_dnn
     * layer's normalisation.
     */
    method ForwardPropagation(input: seq<real>, index: nat) returns (r: seq<real>)
      requires Valid() && ReadsInBounds(channels, dim, |W|)
      requires |input| == inSize && index < |a|
      modifies this`a, this`output
      ensures Valid()
      ensures a == old(a)[index := BatchNorm.Normalize(input, W, channels, dim)]
      ensures output == old(output)[index := Activate(act, a[index], outSize)]
      ensures r == Chain(next, output[index])
    {
      ghost var n := BatchNorm.Normalize(input, W, channels, dim);
      var av := a[index];
      var ch := 0;
      while ch < channels
        invariant 0 <= ch <= channels && |av| == inSize
        invariant a == old(a) && output == old(output)
        invariant forall p :: 0 <= p < ch * dim ==> av[p] == n[p]
      {
        ghost var start := ch * dim;
        assert start + dim <= inSize by {
          assert start + dim == (ch + 1) * dim;
          MulMono(ch + 1, channels, dim);
        }
        var j := 0;
        while j < dim
          invariant 0 <= j <= dim && |av| == inSize && start + dim <= inSize
          invariant a == old(a) && output == old(output)
          invariant forall p :: 0 <= p < start + j ==> av[p] == n[p]
        {
          var pos := ch * dim + j;
          ElementValue(input, ch, j);
          var v := BatchNorm.Affine(Gamma(ch), input[pos], Mean(ch), InvStd(ch), Beta(ch));
          av := av[pos := v];
          j := j + 1;
        }
        assert start + dim == (ch + 1) * dim;
        ch := ch + 1;
      }
      assert av == n;
      a := a[index := av];

      var out := output[index];
      var i := 0;
      while i < outSize
        invariant 0 <= i <= outSize && |out| == outSize
        invariant a == old(a)[index := av] && output == old(output)
        invariant forall k :: 0 <= k < i ==> out[k] == act(av, k)
      {
        out := out[i := act(av, i)];
        i := i + 1;
      }
      assert out == Activate(act, av, outSize);
      output := output[index := out];
      r := Chain(next, output[index]);
    }

    /** The loop body's value for element j of channel ch is the tiny_dnn normalisation there. */
    lemma ElementValue(input: seq<real>, ch: nat, j: nat)
      requires Valid() && ReadsInBounds(channels, dim, |W|)
      requires |input| == inSize && ch < channels && j < dim
      ensures Pos(ch, j, dim) < inSize
      ensures BatchNorm.Affine(Gamma(ch), input[Pos(ch, j, dim)], Mean(ch), InvStd(ch), Beta(ch)) ==
              BatchNorm.Normalize(input, W, channels, dim)[Pos(ch, j, dim)]
    {
      BatchNorm.NormalizeAtPos(input, W, channels, dim, ch, j);
      SameReadsWhenInBounds(channels, dim, ch);
      assert Gamma(ch) == W[BatchNorm.ParamOffset(channels, 1, ch)];
      assert Mean(ch) == W[BatchNorm.ParamOffset(channels, 2, ch)];
      assert InvStd(ch) == W[BatchNorm.ParamOffset(channels, 3, ch)];
      assert Beta(ch) == W[BatchNorm.ParamOffset(channels, 0, ch)];
    }

    method BackPropagation(currDelta: seq<real>, index: nat) returns (r: Result<seq<real>>)
      ensures r == Failure(NotYetImplemented)
    {
      r := Failure(NotYetImplemented);
    }

    method BackPropagation2nd(currentDelta2: seq<real>) returns (r: Result<seq<real>>)
      ensures r == Failure(NotYetImplemented)
    {
      r := Failure(NotYetImplemented);
    }
  }

  /** Where the forward loop reads anything (dim > 0), in-bounds reads are the tiny_dnn reads. */
  lemma SameReadsWhenInBounds(channels: nat, dim: nat, ch: nat)
    requires ch < channels && dim > 0 && ReadsInBounds(channels, dim, 4 * channels)
    ensures dim == 1
    ensures LegacyParamOffset(dim * channels, 0, ch) == BatchNorm.ParamOffset(channels, 0, ch)
    ensures LegacyParamOffset(dim * channels, 1, ch) == BatchNorm.ParamOffset(channels, 1, ch)
    ensures LegacyParamOffset(dim * channels, 2, ch) == BatchNorm.ParamOffset(channels, 2, ch)
    ensures LegacyParamOffset(dim * channels, 3, ch) == BatchNorm.ParamOffset(channels, 3, ch)
  {
    ReadsInBoundsIff(channels, dim);
  }

  lemma Metadata(l: LegacyBatchnormLayer)
    requires l.Valid()
    ensures l.FanInSize() == l.FanOutSize() == l.dim
    ensures l.ConnectionSize() == l.inSize == l.FanInSize() * l.channels
    ensures l.inSize == l.outSize && l.weightCount == 4 * l.channels && l.biasCount == 0
  {
  }
}
