/**
 * The bit-level part of tiny_dnn's `half` type: a 16-bit pattern laid out as
 * the binary16 interchange format of IEEE 754-2008 (section 3.6 gives the
 * parameters, section 3.4 the encoding: 1 sign bit, 5 biased-exponent bits,
 * 10 trailing-significand bits).
 *
 * Every operation modelled here is a mask or XOR on the stored pattern. The
 * operations that go through the F16C float conversion are not modelled;
 * `Widen` below gives the exact real value of a pattern as a reference
 * definition only.
 */
module HalfPrecision {

  /** Masks CNN_HALF_SIGN, CNN_HALF_EXPONENT and CNN_HALF_MANTISSA. */
  const SIGN: bv16 := 0x8000      // 1 << 15
  const EXPONENT: bv16 := 0x7C00  // 0x1F << 10
  const MANTISSA: bv16 := 0x03FF

  /** A `half` value: the private member `_h` and nothing else. */
  datatype Half = Half(h: bv16)

  // ---------------------------------------------------------------------
  // The binary16 fields, read by shifting (independent of the masks above)
  // ---------------------------------------------------------------------

  /** Sign bit S: bit 15. */
  function SignField(x: Half): bv16 { x.h >> 15 }

  /** Biased exponent E: bits 10 to 14. */
  function ExponentField(x: Half): bv16 { (x.h >> 10) & 0x1F }

  /** Trailing significand T: bits 0 to 9. */
  function FractionField(x: Half): bv16 { (x.h << 6) >> 6 }

  /** Assembles a pattern from its three fields (IEEE 754-2008 section 3.4). */
  function Encode(s: bv16, e: bv16, t: bv16): (x: Half)
    requires s <= 1 && e <= 0x1F && t <= 0x3FF
    ensures SignField(x) == s && ExponentField(x) == e && FractionField(x) == t
  {
    Half((s << 15) | (e << 10) | t)
  }

  lemma EncodeFields(x: Half)
    ensures SignField(x) <= 1 && ExponentField(x) <= 0x1F && FractionField(x) <= 0x3FF
    ensures Encode(SignField(x), ExponentField(x), FractionField(x)) == x
  {
  }

  /** The five classes a binary16 datum falls into (IEEE 754-2008 section 3.4). */
  datatype FpClass = NaN | Infinity | Normal | Subnormal | Zero

  /** The IEEE 754 classification, read from the fields. */
  function Classify(x: Half): FpClass {
    var e, t := ExponentField(x), FractionField(x);
    if e == 0x1F then (if t != 0 then NaN else Infinity)
    else if e == 0 then (if t == 0 then Zero else Subnormal)
    else Normal
  }

  // ---------------------------------------------------------------------
  // Constructors
  // ---------------------------------------------------------------------

  /** `half()`: the member initialiser `_h()` value-initialises to 0. */
  function Default(): (r: Half)
    ensures Classify(r) == Zero && SignField(r) == 0
  {
    Half(0)
  }

  /** `half(uint_least16_t u, bool)`: stores `u` verbatim, the flag is ignored. */
  function FromBits(u: bv16, raw: bool): (r: Half)
    ensures SignField(r) == u >> 15
    ensures ExponentField(r) == (u >> 10) & 0x1F
    ensures FractionField(r) == u & 0x3FF
  {
    Half(u)
  }

  // ---------------------------------------------------------------------
  // Classification predicates
  // ---------------------------------------------------------------------

  predicate IsFinite(x: Half)
    ensures IsFinite(x) <==> ExponentField(x) != 0x1F
  {
    ((x.h & EXPONENT) ^ EXPONENT) != 0
  }

  /** Exponent field 0 counts as denormalized, so both zeros are "denormalized". */
  predicate IsDenormalized(x: Half)
    ensures IsDenormalized(x) <==> Classify(x) == Subnormal || Classify(x) == Zero
  {
    IsFinite(x) && (x.h & EXPONENT) == 0
  }

  predicate IsNormalized(x: Half)
    ensures IsNormalized(x) <==> Classify(x) == Normal
  {
    IsFinite(x) && !IsDenormalized(x)
  }

  /** `isZero` is `!bool(*this)`; it agrees with `operator!` (see ZeroIffWidenedZero). */
  predicate IsZero(x: Half)
    ensures IsZero(x) <==> Classify(x) == Zero
  {
    (x.h & !SIGN) == 0
  }

  predicate IsNan(x: Half)
    ensures IsNan(x) <==> Classify(x) == NaN
  {
    !IsFinite(x) && (x.h & MANTISSA) != 0
  }

  predicate IsInfinity(x: Half)
    ensures IsInfinity(x) <==> Classify(x) == Infinity
  {
    !IsFinite(x) && (x.h & MANTISSA) == 0
  }

  predicate IsNegative(x: Half)
    ensures IsNegative(x) <==> SignField(x) == 1
  {
    (x.h & SIGN) != 0
  }

  // ---------------------------------------------------------------------
  // Unary operators, equality and abs
  // ---------------------------------------------------------------------

  /** Unary `+` returns the operand itself. */
  function Plus(x: Half): (r: Half)
    ensures SignField(r) == SignField(x) && ExponentField(r) == ExponentField(x)
    ensures FractionField(r) == FractionField(x)
  {
    x
  }

  /** Unary `-` flips the sign bit and nothing else. */
  function Negate(x: Half): (r: Half)
    ensures SignField(r) != SignField(x)
    ensures ExponentField(r) == ExponentField(x) && FractionField(r) == FractionField(x)
  {
    FromBits(x.h ^ SIGN, true)
  }

  /** `operator!`: true iff every bit but the sign bit is 0. */
  predicate Not(x: Half)
    ensures Not(x) <==> ExponentField(x) == 0 && FractionField(x) == 0
  {
    (x.h & !SIGN) == 0
  }

  /** `operator==` compares the raw patterns. */
  predicate Equal(x: Half, y: Half)
    ensures Equal(x, y) <==>
      SignField(x) == SignField(y) && ExponentField(x) == ExponentField(y) &&
      FractionField(x) == FractionField(y)
  {
    x.h == y.h
  }

  /** `operator!=` compares the raw patterns. */
  predicate NotEqual(x: Half, y: Half)
    ensures NotEqual(x, y) <==>
      SignField(x) != SignField(y) || ExponentField(x) != ExponentField(y) ||
      FractionField(x) != FractionField(y)
  {
    x.h != y.h
  }

  /** `std::abs` clears the sign bit and nothing else. */
  function Abs(x: Half): (r: Half)
    ensures SignField(r) == 0
    ensures ExponentField(r) == ExponentField(x) && FractionField(r) == FractionField(x)
  {
    FromBits(x.h & !SIGN, true)
  }

  // ---------------------------------------------------------------------
  // Properties relating several operations
  // ---------------------------------------------------------------------

  /** Exactly one IEEE class holds, and the predicates split the space accordingly. */
  lemma ClassPartition(x: Half)
    ensures IsFinite(x) <==> !IsNan(x) && !IsInfinity(x)
    ensures !IsFinite(x) ==> (IsNan(x) <==> !IsInfinity(x))
    ensures !(IsNormalized(x) && IsDenormalized(x))
    ensures IsNormalized(x) || IsDenormalized(x) <==> IsFinite(x)
    ensures IsZero(x) ==> IsDenormalized(x)
  {
  }

  lemma NegateInvolution(x: Half)
    ensures Negate(Negate(x)) == x
  {
    assert (x.h ^ SIGN) ^ SIGN == x.h;
  }

  lemma NegateFlipsSign(x: Half)
    ensures IsNegative(Negate(x)) == !IsNegative(x)
  {
  }

  /** Negation leaves the IEEE class as it was. */
  lemma NegatePreservesClass(x: Half)
    ensures Classify(Negate(x)) == Classify(x)
  {
    var y := Negate(x);
    assert ExponentField(y) == ExponentField(x) && FractionField(y) == FractionField(x);
  }

  /** Hence finiteness, NaN and infinity are unchanged by negation... */
  lemma NegatePreservesFiniteness(x: Half)
    ensures IsFinite(Negate(x)) == IsFinite(x)
    ensures IsNan(Negate(x)) == IsNan(x) && IsInfinity(Negate(x)) == IsInfinity(x)
  {
    NegatePreservesClass(x);
  }

  /** ...and so are normalized and denormalized... */
  lemma NegatePreservesNormalization(x: Half)
    ensures IsNormalized(Negate(x)) == IsNormalized(x)
    ensures IsDenormalized(Negate(x)) == IsDenormalized(x)
  {
    NegatePreservesClass(x);
  }

  /** ...and isZero and `!`. */
  lemma NegatePreservesZero(x: Half)
    ensures IsZero(Negate(x)) == IsZero(x) && Not(Negate(x)) == Not(x)
  {
    NegatePreservesClass(x);
  }

  lemma AbsNonNegative(x: Half)
    ensures !IsNegative(Abs(x))
    ensures Classify(Abs(x)) == Classify(x)
  {
  }

  lemma AbsIdempotent(x: Half)
    ensures Abs(Abs(x)) == Abs(x)
  {
    assert (x.h & !SIGN) & !SIGN == x.h & !SIGN;
  }

  lemma AbsOfNegate(x: Half)
    ensures Abs(Negate(x)) == Abs(x)
  {
    assert (x.h ^ SIGN) & !SIGN == x.h & !SIGN;
  }

  lemma AbsOfNonNegative(x: Half)
    ensures !IsNegative(x) ==> Abs(x) == x
  {
  }

  /** `!x` and isZero hold for both +0 (0x0000) and -0 (0x8000) and for no other pattern. */
  lemma ZeroPatterns(x: Half)
    ensures Not(x) <==> IsZero(x)
    ensures Not(x) <==> x == Half(0x0000) || x == Half(0x8000)
  {
  }

  /** Raw-pattern equality: reflexive on every pattern, NaNs included, and +0 differs from -0. */
  lemma EqualityIsRaw(x: Half, y: Half)
    ensures Equal(x, x)
    ensures NotEqual(x, y) == !Equal(x, y)
    ensures Equal(x, y) <==> x == y
  {
  }

  lemma SignedZerosDiffer()
    ensures IsZero(Half(0x0000)) && IsZero(Half(0x8000))
    ensures !Equal(Half(0x0000), Half(0x8000))
    ensures IsNan(Half(0x7E00)) && Equal(Half(0x7E00), Half(0x7E00))
  {
  }

  /** Classification of the patterns +0, -0, +inf, a quiet NaN, 1.0 and the smallest subnormal. */
  lemma ClassifyConstants()
    ensures Classify(Half(0x0000)) == Zero && Classify(Half(0x8000)) == Zero
    ensures Classify(Half(0x7C00)) == Infinity && !IsNegative(Half(0x7C00))
    ensures Classify(Half(0x7E00)) == NaN
    ensures Classify(Half(0x3C00)) == Normal
    ensures Classify(Half(0x0001)) == Subnormal && IsDenormalized(Half(0x0001))
  {
  }

  // ---------------------------------------------------------------------
  // Reference definition: the value a pattern encodes (IEEE 754-2008 section 3.4)
  // ---------------------------------------------------------------------

  datatype Extended = Finite(v: real) | PosInf | NegInf | NotANumber

  function Pow2(n: nat): (r: real)
    ensures r > 0.0
  {
    if n == 0 then 1.0 else 2.0 * Pow2(n - 1)
  }

  /** |value| of a finite datum with biased exponent e and trailing significand t. */
  function Magnitude(e: nat, t: nat): real {
    if e == 0 then (t as real) / Pow2(24)
    else ((1024 + t) as real) * Pow2(e) / Pow2(25)
  }

  lemma {:induction false} MagnitudeZero(e: nat, t: nat)
    ensures Magnitude(e, t) >= 0.0
    ensures Magnitude(e, t) == 0.0 <==> e == 0 && t == 0
  {
    if e == 0 {
      assert Pow2(24) > 0.0;
    } else {
      assert Pow2(e) > 0.0 && Pow2(25) > 0.0;
      assert ((1024 + t) as real) * Pow2(e) > 0.0;
    }
  }

  /** The value a pattern denotes, exactly (widening to float or double is exact). */
  function Widen(x: Half): Extended {
    var e, t := ExponentField(x), FractionField(x);
    if e == 0x1F then (if t != 0 then NotANumber else if SignField(x) == 1 then NegInf else PosInf)
    else
      var m := Magnitude(e as nat, t as nat);
      Finite(if SignField(x) == 1 then -m else m)
  }

  function NegateExtended(v: Extended): Extended {
    match v
    case Finite(r) => Finite(-r)
    case PosInf => NegInf
    case NegInf => PosInf
    case NotANumber => NotANumber
  }

  /** A finite pattern's magnitude is 0 iff both its exponent and significand fields are 0. */
  lemma MagnitudeOfFields(x: Half)
    requires ExponentField(x) != 0x1F
    ensures Magnitude(ExponentField(x) as nat, FractionField(x) as nat) == 0.0 <==>
            ExponentField(x) == 0 && FractionField(x) == 0
  {
    MagnitudeZero(ExponentField(x) as nat, FractionField(x) as nat);
  }

  /** isZero (which goes through the widened value) agrees with the mask used here. */
  lemma ZeroIffWidenedZero(x: Half)
    ensures IsZero(x) <==> Widen(x) == Finite(0.0)
  {
    if ExponentField(x) != 0x1F {
      MagnitudeOfFields(x);
    }
  }

  lemma WidenNegate(x: Half)
    ensures Widen(Negate(x)) == NegateExtended(Widen(x))
  {
  }

  lemma WidenAbs(x: Half)
    ensures IsFinite(x) ==> Widen(Abs(x)).Finite? && Widen(Abs(x)).v >= 0.0
    ensures IsFinite(x) ==> Widen(Abs(x)).v == (if Widen(x).v < 0.0 then -Widen(x).v else Widen(x).v)
    ensures IsInfinity(x) ==> Widen(Abs(x)) == PosInf
    ensures IsNan(x) ==> Widen(Abs(x)) == NotANumber
  {
    var e, t := ExponentField(x), FractionField(x);
    if e != 0x1F {
      MagnitudeZero(e as nat, t as nat);
    }
  }
}
