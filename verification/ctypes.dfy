/** The C-side representations the binding converts to and from: fixed-width integers,
    the casts Rust's `as` performs between them, booleans as `c_int`, and raw pointers. */
module CTypes {
  import opened Wrappers

  const TWO_31: int := 0x8000_0000
  const TWO_32: int := 0x1_0000_0000
  const TWO_64: int := 0x1_0000_0000_0000_0000

  /** `i32` and `c_int`. */
  type Int32 = x: int | -0x8000_0000 <= x < 0x8000_0000
  /** `u32`, and `cef_color_t`. */
  type UInt32 = x: int | 0 <= x < 0x1_0000_0000
  /** `u64`. */
  type UInt64 = x: int | 0 <= x < 0x1_0000_0000_0000_0000
  /** `usize` on a 64-bit target; 32-bit targets are not modelled. */
  type USize = UInt64

  /** An `f32` the binding only copies: its bit pattern, never computed with. */
  datatype Float32 = Float32(bits: bv32)

  /** An `f64` the binding only copies: its bit pattern, never computed with. */
  datatype Float64 = Float64(bits: bv64)

  /** A raw pointer: null, or the address of a `T`. */
  datatype Ptr<+T> = Null | NonNull(target: T)

  /** `opt.map(into_raw).unwrap_or(null_mut())`, and the `match` on `Option` that the
      handler getters use: `None` becomes the null pointer, `Some(x)` a pointer to `x`. */
  function PointerOf<T>(opt: Option<T>): (p: Ptr<T>)
    ensures p.Null? <==> opt.None?
    ensures p.NonNull? ==> p.target == opt.value
  {
    match opt
    case None => Null
    case Some(x) => NonNull(x)
  }

  /** `b as c_int` and `c_int::from(b)`: false is 0 and true is 1. */
  function BoolToCInt(b: bool): (v: Int32)
    ensures v == 0 || v == 1
    ensures v == 1 <==> b
  {
    if b then 1 else 0
  }

  /** The binding's decoding of a C boolean, `v > 0`: any positive value is true, zero
      and every negative value are false. */
  predicate CIntToBool(v: Int32) {
    v > 0
  }

  lemma BoolRoundTrip(b: bool, v: Int32)
    ensures CIntToBool(BoolToCInt(b)) == b
    ensures CIntToBool(v) ==> BoolToCInt(CIntToBool(v)) == 1
    ensures !CIntToBool(v) ==> BoolToCInt(CIntToBool(v)) == 0
  {
  }

  /** Two integers have the same low 32 bits. */
  predicate SameLow32(a: int, b: int) {
    (a - b) % TWO_32 == 0
  }

  /** An `i32` arithmetic result as a release build computes it: the exact value wrapped
      into the `i32` range. */
  function WrappingI32(x: int): (v: Int32)
    ensures SameLow32(v, x)
    ensures -TWO_31 <= x < TWO_31 ==> v == x
  {
    var low := x % TWO_32;
    if low < TWO_31 then low else low - TWO_32
  }

  /** `x as c_int` for a `u32`: the same 32 bits read as two's complement. */
  function U32AsCInt(x: UInt32): (v: Int32)
    ensures SameLow32(v, x)
    ensures v >= 0 <==> x < TWO_31
  {
    if x < TWO_31 then x else x - TWO_32
  }

  /** `v as u32` for a `c_int`: the same 32 bits read as unsigned. */
  function CIntAsU32(v: Int32): (x: UInt32)
    ensures SameLow32(x, v)
    ensures v >= 0 ==> x == v
  {
    if v >= 0 then v else v + TWO_32
  }

  /** `x as c_int` for a `usize`: truncation to the low 32 bits, read as two's complement. */
  function UsizeAsCInt(x: USize): (v: Int32)
    ensures SameLow32(v, x)
    ensures x < TWO_31 ==> v == x
  {
    var low := x % TWO_32;
    if low < TWO_31 then low else low - TWO_32
  }

  /** `v as usize` for a `c_int`: sign extension to 64 bits. */
  function CIntAsUsize(v: Int32): (x: USize)
    ensures (x - v) % TWO_64 == 0
    ensures v >= 0 ==> x == v
  {
    if v >= 0 then v else v + TWO_64
  }

  /** Every `u32` survives the trip through `c_int` and back, and every `c_int` the trip
      through `u32` and back: the two casts only reinterpret the same 32 bits. */
  lemma U32CIntRoundTrip(x: UInt32, v: Int32)
    ensures CIntAsU32(U32AsCInt(x)) == x
    ensures U32AsCInt(CIntAsU32(v)) == v
  {
  }

  /** A `usize` survives `as c_int` then `as usize` exactly when, read as a signed 64-bit
      integer, it lies in the `i32` range: the values up to `i32::MAX`, and the top 2^31
      values (which are the negative `isize` values down to `i32::MIN`). */
  lemma {:induction false} UsizeCIntRoundTrip(x: USize)
    ensures CIntAsUsize(UsizeAsCInt(x)) == x <==> x < TWO_31 || x >= TWO_64 - TWO_31
  {
    var low := x % TWO_32;
    assert x == (x / TWO_32) * TWO_32 + low;
    if x < TWO_31 {
      assert low == x;
    } else if x >= TWO_64 - TWO_31 {
      assert x / TWO_32 == TWO_32 - 1;
      assert low >= TWO_31;
    } else if low < TWO_31 {
      assert CIntAsUsize(UsizeAsCInt(x)) == low;
      assert x / TWO_32 >= 1;
    } else {
      assert CIntAsUsize(UsizeAsCInt(x)) == low - TWO_32 + TWO_64;
      assert x / TWO_32 < TWO_32 - 1;
    }
  }

  /** The width of C's `unsigned long` on a 64-bit target: 64 bits on Linux and macOS
      (LP64), 32 bits on Windows (LLP64). `usize` is 64 bits wide on both. */
  datatype CULongWidth = ULong32 | ULong64

  function CULongLimit(w: CULongWidth): (n: nat)
    ensures n == TWO_32 || n == TWO_64
  {
    match w
    case ULong32 => TWO_32
    case ULong64 => TWO_64
  }

  /** `x as c_ulong` for a `u64`: the identity when `c_ulong` is 64 bits wide, truncation
      to the low 32 bits when it is 32 bits wide. */
  function U64AsCULong(w: CULongWidth, x: UInt64): (v: UInt64)
    ensures v < CULongLimit(w)
    ensures (v - x) % CULongLimit(w) == 0
  {
    x % CULongLimit(w)
  }

  /** Going back, `u64::from(c_ulong)` is zero extension and keeps the value, so the round
      trip loses exactly the bits above `c_ulong`'s width. */
  lemma CULongRoundTrip(w: CULongWidth, x: UInt64)
    ensures w == ULong64 ==> U64AsCULong(w, x) == x
    ensures w == ULong32 ==> U64AsCULong(w, x) == x % TWO_32
    ensures U64AsCULong(w, x) == x <==> x < CULongLimit(w)
  {
  }
}
