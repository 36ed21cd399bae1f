/**
 * What the per-channel inference layers share: their error condition, the
 * activation strategy, the optional successor in the layer chain, and the
 * `channels x dim` block layout they all index by `pos = ch * dim + j`.
 */
module LayerCore {

  datatype Option<T> = None | Some(value: T)

  /** The conditions the core raises as exceptions. */
  datatype LayerError =
    | NotYetImplemented   // back propagation on an inference-only layer
    | NotSupportedEngine  // a kernel asked to run on an engine it has no code for

  /** A vector-valued result, or the exception the source throws instead. */
  datatype Result<T> = Success(value: T) | Failure(error: LayerError)

  /** `h_.f(a, i)`: the activation sees the whole pre-activation vector and an index. */
  type Activation = (seq<real>, nat) -> real

  /**
   * `next_`: the successor's forward propagation seen as a function of this
   * layer's output, or None at the end of the chain.
   */
  type Successor = Option<seq<real> -> seq<real>>

  /** `next_ ? next_->forward_propagation(out, index) : out` */
  function Chain(next: Successor, out: seq<real>): (r: seq<real>)
    ensures next.None? ==> r == out
    ensures next.Some? ==> r == next.value(out)
  {
    match next
    case None => out
    case Some(f) => f(out)
  }

  /** `out[i] = h_.f(a, i)` for every `i < n`. */
  function Activate(f: Activation, a: seq<real>, n: nat): (out: seq<real>)
    ensures |out| == n
    ensures forall i :: 0 <= i < n ==> out[i] == f(a, i)
  {
    seq(n, i requires 0 <= i < n => f(a, i))
  }

  // -----------------------------------------------------------------------
  // The channel layout: position ch * dim + j holds element j of channel ch
  // -----------------------------------------------------------------------

  function Pos(ch: nat, j: nat, dim: nat): nat {
    ch * dim + j
  }

  /** Every (channel, element) pair lands inside the buffer, and can be read back. */
  lemma PosInRange(ch: nat, j: nat, dim: nat, channels: nat)
    requires ch < channels && j < dim
    ensures Pos(ch, j, dim) < channels * dim
    ensures Pos(ch, j, dim) / dim == ch && Pos(ch, j, dim) % dim == j
  {
    var p := ch * dim + j;
    assert (ch + 1) * dim == ch * dim + dim;
    assert ch + 1 <= channels;
    MulMono(ch + 1, channels, dim);
    DivModUnique(p, dim, ch, j);
  }

  /** Every buffer position is the image of exactly one (channel, element) pair. */
  lemma PosCoverage(p: nat, dim: nat, channels: nat)
    requires p < channels * dim
    ensures dim > 0 && p / dim < channels && p % dim < dim
    ensures Pos(p / dim, p % dim, dim) == p
  {
    assert dim > 0;
    var q := p / dim;
    assert q * dim + p % dim == p;
    if q >= channels {
      MulMono(channels, q, dim);
    }
  }

  lemma PosInjective(c1: nat, j1: nat, c2: nat, j2: nat, dim: nat)
    requires j1 < dim && j2 < dim
    requires Pos(c1, j1, dim) == Pos(c2, j2, dim)
    ensures c1 == c2 && j1 == j2
  {
    DivModUnique(Pos(c1, j1, dim), dim, c1, j1);
    DivModUnique(Pos(c2, j2, dim), dim, c2, j2);
  }

  lemma MulMono(a: nat, b: nat, d: nat)
    requires a <= b
    ensures a * d <= b * d
  {
  }

  /** Quotient and remainder are determined by p == q * d + r with 0 <= r < d. */
  lemma DivModUnique(p: nat, d: nat, q: nat, r: nat)
    requires r < d && p == q * d + r
    ensures p / d == q && p % d == r
  {
    var q', r' := p / d, p % d;
    assert q' * d + r' == q * d + r;
    assert (q' + 1) * d == q' * d + d;
    assert (q + 1) * d == q * d + d;
    if q' < q {
      MulMono(q' + 1, q, d);
    } else if q' > q {
      MulMono(q + 1, q', d);
    }
  }
}
