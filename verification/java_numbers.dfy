/** The Java numeric values that reach the update-operator factories: the
    boxed `Number` kinds, the fixed integer widths, `long` wrap-around and
    the sign of a `double`. */
module JavaNumbers {

  const TWO_64: int := 0x1_0000_0000_0000_0000
  const LONG_MIN: int := -0x8000_0000_0000_0000
  const LONG_MAX: int := 0x7FFF_FFFF_FFFF_FFFF

  type Int8 = x: int | -0x80 <= x < 0x80
  type Int16 = x: int | -0x8000 <= x < 0x8000
  type Int32 = x: int | -0x8000_0000 <= x < 0x8000_0000
  type Int64 = x: int | -0x8000_0000_0000_0000 <= x < 0x8000_0000_0000_0000

  /** Java `long` arithmetic keeps the low 64 bits of the exact result and
      reads them as a two's-complement number. */
  function WrapLong(x: int): (r: Int64)
    ensures (x - r) % TWO_64 == 0
    ensures LONG_MIN <= x <= LONG_MAX ==> r == x
  {
    var k := (x - LONG_MIN) / TWO_64;
    assert x - LONG_MIN == k * TWO_64 + (x - LONG_MIN) % TWO_64;
    (x - LONG_MIN) % TWO_64 + LONG_MIN
  }

  /** `x * -1` on a Java `long`. */
  function NegateLong(x: Int64): (r: Int64)
    ensures x != LONG_MIN ==> r == -x
    ensures x == LONG_MIN ==> r == LONG_MIN
  {
    WrapLong(x * -1)
  }

  type NonNegReal = r: real | r >= 0.0

  /** The absolute value of a non-NaN double. Which reals a double can hold
      exactly is not modelled. */
  datatype Magnitude = Finite(size: NonNegReal) | Infinite

  /** A Java `double` (or a `float` widened to one): NaN, or a sign bit with
      a magnitude. Zero has both signs, as in IEEE 754. */
  datatype Double = NaN | Signed(negative: bool, magnitude: Magnitude) {

    predicate IsFinite() {
      Signed? && magnitude.Finite?
    }

    function RealValue(): real
      requires IsFinite()
    {
      var size: real := magnitude.size;
      if negative then -size else size
    }
  }

  /** `d * -1` on a Java `double`: IEEE 754 multiplication by -1 is exact,
      so it only flips the sign; NaN stays NaN. */
  function NegateDouble(d: Double): (r: Double)
    ensures r.NaN? <==> d.NaN?
    ensures d.IsFinite() <==> r.IsFinite()
    ensures d.IsFinite() ==> r.RealValue() == -d.RealValue()
    ensures d.Signed? ==> r.negative != d.negative
  {
    match d
    case NaN => NaN
    case Signed(negative, magnitude) => Signed(!negative, magnitude)
  }

  /** The runtime class of a boxed `java.lang.Number` argument. */
  datatype Number =
    | JByte(byteValue: Int8)
    | JShort(shortValue: Int16)
    | JInteger(intValue: Int32)
    | JLong(longValue: Int64)
    | JFloat(floatValue: Double)
    | JDouble(doubleValue: Double)
      /** Any other subclass (BigDecimal, BigInteger, AtomicLong, ...). */
    | OtherNumber(className: string)
      /** A null reference: it is an instance of no class. */
    | NullNumber
  {
    predicate IsIntegral() {
      JInteger? || JLong?
    }

    predicate IsFloating() {
      JDouble? || JFloat?
    }

    /** `Number.longValue()` on an Integer or a Long: widening, exact. */
    function LongValue(): Int64
      requires IsIntegral()
    {
      if JInteger? then intValue else longValue
    }

    /** `Number.doubleValue()` on a Float or a Double: widening, exact. */
    function DoubleValue(): Double
      requires IsFloating()
    {
      if JFloat? then floatValue else doubleValue
    }
  }

  lemma NegateLongInvolution(x: Int64)
    ensures NegateLong(NegateLong(x)) == x
  {
  }

  lemma NegateDoubleInvolution(d: Double)
    ensures NegateDouble(NegateDouble(d)) == d
  {
  }
}
