/** Cell values of the columnar table and the element types a column can be
    declared with, plus the default numeric conversion used by retyping.

    The C++ frame stores `int` (32-bit signed), `unsigned int` (32-bit),
    `unsigned long` (64-bit, the index type), `double` and `std::string`
    columns. Integers are unbounded here, so every width is stated explicitly
    and conversions between integral types wrap as C++ `static_cast` does. */
module Values {

  /** A double is compared only by equality; NaN is its own constructor so that
      the fill value of an aligned column can be recognised (`std::isnan`). */
  datatype Double = Num(x: real) | NaN

  datatype ElemType = IntT | UIntT | ULongT | DblT | StrT

  datatype Value =
    | Int(i: int)       // int, 32-bit signed
    | UInt(u: int)      // unsigned int, 32-bit
    | ULong(ul: int)    // unsigned long, 64-bit
    | Dbl(d: Double)    // double
    | Str(s: string)    // std::string

  const TWO_31: int := 0x8000_0000
  const TWO_32: int := 0x1_0000_0000
  const TWO_64: int := 0x1_0000_0000_0000_0000

  function TypeOf(v: Value): ElemType {
    match v
    case Int(_) => IntT
    case UInt(_) => UIntT
    case ULong(_) => ULongT
    case Dbl(_) => DblT
    case Str(_) => StrT
  }

  /** The integer `x` fits the width of the integral type `t`. */
  predicate Representable(x: int, t: ElemType) {
    match t
    case IntT => -TWO_31 <= x < TWO_31
    case UIntT => 0 <= x < TWO_32
    case ULongT => 0 <= x < TWO_64
    case _ => false
  }

  /** The value fits the width of its C++ type. */
  predicate InRange(v: Value) {
    IsIntegral(TypeOf(v)) ==> Representable(IntegralOf(v), TypeOf(v))
  }

  /** `v` is a legal element of a column declared with type `t`. */
  predicate HasType(v: Value, t: ElemType) {
    TypeOf(v) == t && InRange(v)
  }

  predicate IsIntegral(t: ElemType) {
    t == IntT || t == UIntT || t == ULongT
  }

  /** Number of distinct bit patterns of an integral type. */
  function Modulus(t: ElemType): (m: int)
    requires IsIntegral(t)
    ensures m == TWO_32 || m == TWO_64
  {
    if t == ULongT then TWO_64 else TWO_32
  }

  function IntegralOf(v: Value): int
    requires IsIntegral(TypeOf(v))
  {
    match v
    case Int(i) => i
    case UInt(u) => u
    case ULong(u) => u
  }

  /** Reinterprets the integer `x` as a 32-bit unsigned int: x mod 2^32. */
  function ToUInt32(x: int): (r: int)
    ensures 0 <= r < TWO_32
    ensures (r - x) % TWO_32 == 0
  {
    x % TWO_32
  }

  /** Reinterprets the integer `x` as a 32-bit two's-complement int. */
  function ToInt32(x: int): (r: int)
    ensures -TWO_31 <= r < TWO_31
    ensures (r - x) % TWO_32 == 0
  {
    var m := x % TWO_32;
    if m >= TWO_31 then m - TWO_32 else m
  }

  /** Reinterprets the integer `x` as a 64-bit unsigned long: x mod 2^64. */
  function ToUInt64(x: int): (r: int)
    ensures 0 <= r < TWO_64
    ensures (r - x) % TWO_64 == 0
  {
    x % TWO_64
  }

  /** The default conversion of retyping, C++ `static_cast<To>(v)`: defined
      between integral types, where it keeps the bit pattern modulo the
      target's width. Other pairs have no default conversion. */
  function Cast(v: Value, to: ElemType): (r: Option<Value>)
    ensures r.Some? <==> IsIntegral(TypeOf(v)) && IsIntegral(to)
    ensures r.Some? ==> HasType(r.value, to)
    ensures r.Some? ==> (IntegralOf(r.value) - IntegralOf(v)) % Modulus(to) == 0
  {
    if !IsIntegral(TypeOf(v)) || !IsIntegral(to) then None
    else
      var x := IntegralOf(v);
      match to
      case IntT => Some(Int(ToInt32(x)))
      case UIntT => Some(UInt(ToUInt32(x)))
      case ULongT => Some(ULong(ToUInt64(x)))
  }

  /** A value already representable in the target type is not changed by the
      default conversion. */
  lemma CastKeepsRepresentable(v: Value, to: ElemType)
    requires IsIntegral(TypeOf(v)) && Representable(IntegralOf(v), to)
    ensures Cast(v, to).Some? && IntegralOf(Cast(v, to).value) == IntegralOf(v)
  {
  }

  /** Casting int to unsigned int and back restores every int: the signed to
      unsigned retype loses no information. */
  lemma IntUIntRoundTrip(v: Value)
    requires HasType(v, IntT)
    ensures Cast(v, UIntT).Some?
    ensures Cast(Cast(v, UIntT).value, IntT) == Some(v)
  {
    var u := Cast(v, UIntT).value;
    if v.i < 0 {
      assert u.u == v.i + TWO_32;
    } else {
      assert u.u == v.i;
    }
  }

  /** The other direction: unsigned int to int and back. */
  lemma UIntIntRoundTrip(v: Value)
    requires HasType(v, UIntT)
    ensures Cast(v, IntT).Some?
    ensures Cast(Cast(v, IntT).value, UIntT) == Some(v)
  {
    var w := Cast(v, IntT).value;
    if v.u >= TWO_31 {
      assert w.i == v.u - TWO_32;
    } else {
      assert w.i == v.u;
    }
  }

  datatype Option<+T> = None | Some(value: T)
}
