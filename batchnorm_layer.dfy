/**
 * tiny_dnn's inference-only batch normalisation layer. The input is
 * `channels` blocks of `dim` elements; the weight vector holds four blocks of
 * `channels` statistics each, in the order beta, gamma, mean, invstd.
 */
module BatchNorm {
  import opened LayerCore

  /** Index of statistic k (0 beta, 1 gamma, 2 mean, 3 invstd) of channel c. */
  function ParamOffset(channels: nat, k: nat, c: nat): (i: nat)
    requires k < 4 && c < channels
    ensures i < 4 * channels
    ensures i / channels == k && i % channels == c
  {
    PosInRange(k, c, channels, 4);
    channels * k + c
  }

  /** Distinct (statistic, channel) pairs read distinct weights. */
  lemma ParamOffsetInjective(channels: nat, k1: nat, c1: nat, k2: nat, c2: nat)
    requires k1 < 4 && c1 < channels && k2 < 4 && c2 < channels
    requires ParamOffset(channels, k1, c1) == ParamOffset(channels, k2, c2)
    ensures k1 == k2 && c1 == c2
  {
  }

  /** The normalisation formula. */
  function Affine(gamma: real, x: real, mean: real, invstd: real, beta: real): real {
    gamma * (x - mean) * invstd + beta
  }

  /** The formula with the statistics of channel ch. */
  function NormalizeAt(w: seq<real>, channels: nat, ch: nat, x: real): real
    requires |w| == 4 * channels && ch < channels
  {
    var beta := w[ParamOffset(channels, 0, ch)];
    var gamma := w[ParamOffset(channels, 1, ch)];
    var mean := w[ParamOffset(channels, 2, ch)];
    var invstd := w[ParamOffset(channels, 3, ch)];
    Affine(gamma, x, mean, invstd, beta)
  }

  /** The pre-activation vector: every element normalised with its own channel's statistics. */
  function Normalize(input: seq<real>, w: seq<real>, channels: nat, dim: nat): (a: seq<real>)
    requires |input| == channels * dim && |w| == 4 * channels
    ensures |a| == channels * dim
  {
    seq(channels * dim, p requires 0 <= p < channels * dim =>
      PosCoverage(p, dim, channels);
      NormalizeAt(w, channels, p / dim, input[p]))
  }

  /** Element j of channel ch of the pre-activation vector. */
  lemma NormalizeAtPos(input: seq<real>, w: seq<real>, channels: nat, dim: nat, ch: nat, j: nat)
    requires |input| == channels * dim && |w| == 4 * channels
    requires ch < channels && j < dim
    ensures Pos(ch, j, dim) < channels * dim
    ensures Normalize(input, w, channels, dim)[Pos(ch, j, dim)] ==
            NormalizeAt(w, channels, ch, input[Pos(ch, j, dim)])
  {
    PosInRange(ch, j, dim, channels);
  }

  /** Statistics beta = 0, gamma = 1, mean = 0, invstd = 1 in every channel. */
  ghost predicate IdentityStatistics(w: seq<real>, channels: nat)
    requires |w| == 4 * channels
  {
    forall c :: 0 <= c < channels ==>
      w[ParamOffset(channels, 0, c)] == 0.0 && w[ParamOffset(channels, 1, c)] == 1.0 &&
      w[ParamOffset(channels, 2, c)] == 0.0 && w[ParamOffset(channels, 3, c)] == 1.0
  }

  lemma NormalizeIdentity(input: seq<real>, w: seq<real>, channels: nat, dim: nat)
    requires |input| == channels * dim && |w| == 4 * channels
    requires IdentityStatistics(w, channels)
    ensures Normalize(input, w, channels, dim) == input
  {
    var a := Normalize(input, w, channels, dim);
    forall p | 0 <= p < channels * dim
      ensures a[p] == input[p]
    {
      PosCoverage(p, dim, channels);
      var c := p / dim;
      assert w[ParamOffset(channels, 1, c)] == 1.0 && w[ParamOffset(channels, 3, c)] == 1.0;
    }
  }

  /** The identity activation `a[i]`. */
  function Identity(v: seq<real>, i: nat): real {
    if i < |v| then v[i] else 0.0
  }

  /** One channel of one element, identity statistics and activation: input [2.0] gives [2.0]. */
  lemma SingleElementScenario()
    ensures Activate(Identity, Normalize([2.0], [0.0, 1.0, 0.0, 1.0], 1, 1), 1) == [2.0]
  {
    var w := [0.0, 1.0, 0.0, 1.0];
    var n := Normalize([2.0], w, 1, 1);
    NormalizeAtPos([2.0], w, 1, 1, 0, 0);
    assert ParamOffset(1, 0, 0) == 0 && ParamOffset(1, 1, 0) == 1;
    assert ParamOffset(1, 2, 0) == 2 && ParamOffset(1, 3, 0) == 3;
    assert n[0] == 2.0;
    var out := Activate(Identity, n, 1);
    assert out[0] == 2.0;
  }

  class BatchnormLayer {
    const channels: nat
    const dim: nat
    const inSize: nat
    const outSize: nat
    const weightCount: nat
    const biasCount: nat
    /** The activation `h_`, fixed by the layer's type. */
    const act: Activation

    /** `W_`: the four blocks of per-channel statistics. */
    var W: seq<real>
    /** `a_[index]` and `output_[index]`: per-sample buffers owned by the layer. */
    var a: seq<seq<real>>
    var output: seq<seq<real>>
    var next: Successor
    var parallelize: bool

    ghost predicate Valid()
      reads this
    {
      && inSize == dim * channels && outSize == inSize
      && weightCount == 4 * channels && biasCount == 0
      && |W| == weightCount
      && |a| == |output|
      && (forall k :: 0 <= k < |a| ==> |a[k]| == inSize)
      && (forall k :: 0 <= k < |output| ==> |output[k]| == outSize)
    }

    /** `batchnorm_layer(channels, dim)`; `samples` is the number of per-sample buffers. */
    constructor (channels: nat, dim: nat, act: Activation, samples: nat)
      ensures Valid()
      ensures this.channels == channels && this.dim == dim && this.act == act
      ensures inSize == dim * channels && outSize == dim * channels
      ensures weightCount == 4 * channels && biasCount == 0
      ensures |a| == samples && next.None?
    {
      this.channels := channels;
      this.dim := dim;
      this.act := act;
      inSize := dim * channels;
      outSize := dim * channels;
      weightCount := 4 * channels;
      biasCount := 0;
      W := seq(4 * channels, _ => 0.0);
      a := seq(samples, _ => seq(dim * channels, _ => 0.0));
      output := seq(samples, _ => seq(dim * channels, _ => 0.0));
      next := None;
      // parallelize_ keeps the base layer's initial value, which is not part of this model
    }

    /** The whole input is one connection block. */
    function ConnectionSize(): (r: nat)
      reads this
      ensures Valid() ==> r == dim * channels
    {
      inSize
    }

    /** One channel's elements: fan-in times the channel count is the input size. */
    function FanInSize(): (r: nat)
      reads this
      ensures Valid() ==> r * channels == ConnectionSize()
    {
      dim
    }

    /** Fan-out equals fan-in. */
    function FanOutSize(): (r: nat)
      reads this
      ensures r == FanInSize()
    {
      dim
    }

    function Beta(c: nat): (r: real)
      reads this
      requires Valid() && c < channels
      ensures r == W[c]
    {
      W[ParamOffset(channels, 0, c)]
    }

    function Gamma(c: nat): (r: real)
      reads this
      requires Valid() && c < channels
      ensures r == W[channels + c]
    {
      W[ParamOffset(channels, 1, c)]
    }

    function Mean(c: nat): (r: real)
      reads this
      requires Valid() && c < channels
      ensures r == W[2 * channels + c]
    {
      W[ParamOffset(channels, 2, c)]
    }

    function InvStd(c: nat): (r: real)
      reads this
      requires Valid() && c < channels
      ensures r == W[3 * channels + c]
    {
      W[ParamOffset(channels, 3, c)]
    }

    /**
     * Fills `a_[index]` channel by channel, then `output_[index]` element by
     * element, and hands the output on to the successor if there is one.
     */
    method ForwardPropagation(input: seq<real>, index: nat) returns (r: seq<real>)
      requires Valid()
      requires |input| == inSize && index < |a|
      modifies this`a, this`output
      ensures Valid()
      ensures a == old(a)[index := Normalize(input, W, channels, dim)]
      ensures output == old(output)[index := Activate(act, a[index], outSize)]
      ensures r == Chain(next, output[index])
    {
      ghost var n := Normalize(input, W, channels, dim);
      var av := a[index];  // vec_t &a = a_[index]
      var ch := 0;
      while ch < channels
        invariant 0 <= ch <= channels && |av| == inSize
        invariant a == old(a) && output == old(output)
        invariant forall p :: 0 <= p < ch * dim ==> av[p] == n[p]
      {
        ghost var start := ch * dim;
        assert start + dim <= inSize by {
          assert start + dim == (ch + 1) * dim;
          MulMono(ch + 1, channels, dim);
        }
        var j := 0;
        while j < dim
          invariant 0 <= j <= dim && |av| == inSize && start + dim <= inSize
          invariant a == old(a) && output == old(output)
          invariant forall p :: 0 <= p < start + j ==> av[p] == n[p]
        {
          var pos := ch * dim + j;
          ElementValue(input, ch, j);
          var v := Affine(Gamma(ch), input[pos], Mean(ch), InvStd(ch), Beta(ch));
          av := av[pos := v];
          j := j + 1;
        }
        assert start + dim == (ch + 1) * dim;
        ch := ch + 1;
      }
      assert av == n;
      a := a[index := av];

      var out := output[index];  // vec_t &out = output_[index]
      var i := 0;
      while i < outSize
        invariant 0 <= i <= outSize && |out| == outSize
        invariant a == old(a)[index := av] && output == old(output)
        invariant forall k :: 0 <= k < i ==> out[k] == act(av, k)
      {
        out := out[i := act(av, i)];
        i := i + 1;
      }
      assert out == Activate(act, av, outSize);
      output := output[index := out];
      r := Chain(next, output[index]);
    }

    /** The loop body's value for element j of channel ch is the pre-activation there. */
    lemma ElementValue(input: seq<real>, ch: nat, j: nat)
      requires Valid() && |input| == inSize && ch < channels && j < dim
      ensures Pos(ch, j, dim) < inSize
      ensures Affine(Gamma(ch), input[Pos(ch, j, dim)], Mean(ch), InvStd(ch), Beta(ch)) ==
              Normalize(input, W, channels, dim)[Pos(ch, j, dim)]
    {
      NormalizeAtPos(input, W, channels, dim, ch, j);
    }

    /** Backward propagation is not implemented: it always throws. */
    method BackPropagation(currDelta: seq<real>, index: nat) returns (r: Result<seq<real>>)
      ensures r == Failure(NotYetImplemented)
    {
      r := Failure(NotYetImplemented);
    }

    method BackPropagation2nd(currentDelta2: seq<real>) returns (r: Result<seq<real>>)
      ensures r == Failure(NotYetImplemented)
    {
      r := Failure(NotYetImplemented);
    }
  }

  /** Fan-in and fan-out are one channel's element count; connections are the input size. */
  lemma Metadata(l: BatchnormLayer)
    requires l.Valid()
    ensures l.FanInSize() == l.FanOutSize() == l.dim
    ensures l.ConnectionSize() == l.inSize == l.FanInSize() * l.channels
    ensures l.inSize == l.outSize && l.weightCount == 4 * l.channels && l.biasCount == 0
  {
  }
}
