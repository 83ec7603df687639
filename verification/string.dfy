/** `CefString` and its conversions from and to CEF's `cef_string_utf16_t`. */
module Strings {
  import opened Wrappers
  import opened CTypes

  /** The content of a `CefString`: a `U16CString` is a sequence of UTF-16 code units
      with no interior NUL (its terminator is not part of the content). */
  type CefString = s: seq<bv16> | 0 !in s

  datatype CefStringError = NullPointer | Conversion

  /** widestring's `ContainsNul` error: the position of the first NUL code unit. */
  datatype ContainsNul = ContainsNul(index: nat)

  /** An opaque `dtor` function pointer. */
  datatype Dtor = Dtor(address: nat)

  /** A `cef_string_utf16_t`: `buffer` is what `str_` addresses, `length` the count of
      code units CEF says the string has (a `usize`, left unbounded here), and `dtor` the
      optional destructor. A `Dangling` string is a view whose lender has been dropped: the
      struct still holds its length and destructor, but the code units `str_` addressed
      have been freed. */
  datatype RawString =
    | RawString(buffer: seq<bv16>, length: nat, dtor: Option<Dtor>)
    | Dangling(length: nat, dtor: Option<Dtor>)

  /** `str_` may be read for `length` code units: what `U16CString::from_ptr` asks of
      its caller. A dangling view may not be read at all. */
  predicate Readable(raw: RawString) {
    raw.RawString? && raw.length <= |raw.buffer|
  }

  /** What becomes of a borrowed view when the `CefString` that lent it is dropped. */
  function Release(raw: RawString): (released: RawString)
    ensures !Readable(released)
    ensures released.length == raw.length && released.dtor == raw.dtor
  {
    Dangling(raw.length, raw.dtor)
  }

  /** The `length` code units `str_` addresses. */
  function Units(raw: RawString): seq<bv16>
    requires Readable(raw)
  {
    raw.buffer[..raw.length]
  }

  /** widestring (1.x) takes a NUL in the last position of the code units it is given for
      the terminator of the C string, and keeps the units before it. */
  function WithoutTerminator(units: seq<bv16>): (content: seq<bv16>)
    ensures content <= units && |units| <= |content| + 1
    ensures |content| < |units| <==> |units| > 0 && units[|units| - 1] == 0
  {
    if |units| > 0 && units[|units| - 1] == 0 then units[..|units| - 1] else units
  }

  /** The string a readable `cef_string_utf16_t` holds: its code units without a final
      terminator. */
  function Content(raw: RawString): seq<bv16>
    requires Readable(raw)
  {
    WithoutTerminator(Units(raw))
  }

  /** No NUL comes before the last of the `length` code units, so they form a
      `CefString`. */
  predicate Convertible(raw: RawString)
    requires Readable(raw)
  {
    0 !in Content(raw)
  }

  /** The index of the first NUL code unit of `s`, or `|s|` when there is none. */
  function FirstNul(s: seq<bv16>): (i: nat)
    ensures i <= |s|
    ensures i < |s| ==> s[i] == 0
    ensures forall j :: 0 <= j < i ==> s[j] != 0
  {
    if s == [] then 0
    else if s[0] == 0 then 0
    else 1 + FirstNul(s[1..])
  }

  /** widestring's `U16CString::from_vec(v)`: a NUL is allowed only as the last code unit,
      where it is the terminator; any earlier NUL fails with its position. */
  function FromVec(v: seq<bv16>): (r: Result<CefString, ContainsNul>)
    ensures r.Ok? <==> 0 !in WithoutTerminator(v)
    ensures r.Ok? ==> r.value == WithoutTerminator(v)
    ensures r.Err? ==> r.error.index < |v| - 1 && v[r.error.index] == 0
    ensures r.Err? ==> forall j :: 0 <= j < r.error.index ==> v[j] != 0
  {
    var i := FirstNul(v);
    if i + 1 >= |v| then
      assert forall j :: 0 <= j < |WithoutTerminator(v)| ==> WithoutTerminator(v)[j] == v[j];
      Ok(WithoutTerminator(v))
    else
      assert WithoutTerminator(v)[i] == 0;
      Err(ContainsNul(i))
  }

  /** widestring's `U16CString::from_ptr(p, len)`: `from_vec` on the `len` code units at
      `p`; when `len` is 0 nothing is read and the string is empty. */
  function FromPtr(buffer: seq<bv16>, len: nat): (r: Result<CefString, ContainsNul>)
    requires len <= |buffer|
    ensures len == 0 ==> r == Ok([])
    ensures r.Ok? <==> 0 !in WithoutTerminator(buffer[..len])
    ensures r.Ok? ==> r.value == WithoutTerminator(buffer[..len])
    ensures r.Err? ==> r.error.index < len - 1 && buffer[r.error.index] == 0
  {
    if len == 0 then Ok([]) else FromVec(buffer[..len])
  }

  /** `CefString::from_raw`: a null pointer is `NullPointer` and nothing is read; otherwise
      the string is the first `length` code units without a final terminator, or
      `Conversion` when a NUL comes before the last of them. */
  function FromRaw(ptr: Ptr<RawString>): (r: Result<CefString, CefStringError>)
    requires ptr.NonNull? ==> Readable(ptr.target)
    ensures ptr.Null? ==> r == Err(NullPointer)
    ensures ptr.NonNull? ==> (r.Ok? <==> Convertible(ptr.target))
    ensures ptr.NonNull? && r.Ok? ==> r.value == Content(ptr.target)
    ensures ptr.NonNull? && r.Err? ==> r.error == Conversion
  {
    match ptr
    case Null => Err(NullPointer)
    case NonNull(raw) =>
      match FromPtr(raw.buffer, raw.length)
      case Ok(s) => Ok(s)
      case Err(_) => Err(Conversion)
  }

  /** `CefString::get_raw`: a borrowed view of the string, with the length of the content,
      the NUL terminator after it, and no destructor (no ownership is transferred). */
  function GetRaw(s: CefString): (raw: RawString)
    ensures BorrowedView(raw, s)
    ensures |raw.buffer| == |s| + 1 && raw.buffer[|s|] == 0
  {
    RawString(s + [0], |s|, None)
  }

  /** `raw` shows `s` without owning it, and the string that lent it is still alive. */
  predicate BorrowedView(raw: RawString, s: CefString) {
    raw.dtor.None? && raw.length == |s| && Readable(raw) && Units(raw) == s
  }

  /** `TryFrom<cef_string_utf16_t> for CefString`. */
  function TryFrom(raw: RawString): (r: Result<CefString, ContainsNul>)
    requires Readable(raw)
    ensures r.Ok? <==> Convertible(raw)
    ensures r.Ok? ==> r.value == Content(raw)
    ensures r.Err? ==> r.error.index < raw.length - 1 && raw.buffer[r.error.index] == 0
  {
    FromPtr(raw.buffer, raw.length)
  }

  /** Any borrowed view of `s` converts back to exactly `s`, both through `try_from` and
      through `from_raw`; in particular `get_raw` followed by `try_from` is the identity. */
  lemma BorrowedViewRoundTrip(raw: RawString, s: CefString)
    requires BorrowedView(raw, s)
    ensures Content(raw) == s
    ensures TryFrom(raw) == Ok(s)
    ensures FromRaw(NonNull(raw)) == Ok(s)
  {
    if |s| > 0 {
      assert s[|s| - 1] in s;
    }
  }

  lemma GetRawRoundTrip(s: CefString)
    ensures TryFrom(GetRaw(s)) == Ok(s)
    ensures FromRaw(NonNull(GetRaw(s))) == Ok(s)
  {
    BorrowedViewRoundTrip(GetRaw(s), s);
  }

  /** The UTF-16 encoding of one Unicode scalar value. */
  function Utf16Char(c: char): (units: seq<bv16>)
    ensures 1 <= |units| <= 2
  {
    var n := c as int;
    if n < 0x1_0000 then [n as bv16]
    else
      var m := n - 0x1_0000;
      [(0xD800 + m / 0x400) as bv16, (0xDC00 + m % 0x400) as bv16]
  }

  /** The UTF-16 encoding of a Rust `&str`, as `U16CString::from_str` computes it. */
  function Utf16(s: string): (units: seq<bv16>)
    ensures |s| <= |units| <= 2 * |s|
  {
    if s == [] then [] else Utf16Char(s[0]) + Utf16(s[1..])
  }

  lemma Utf16CharNul(c: char)
    ensures 0 in Utf16Char(c) <==> c == '\0'
  {
    var n := c as int;
    if n >= 0x1_0000 {
      var m := n - 0x1_0000;
      assert 0xD800 <= 0xD800 + m / 0x400 < 0x1_0000;
      assert 0xDC00 <= 0xDC00 + m % 0x400 < 0x1_0000;
    }
  }

  /** A string encodes to a NUL code unit exactly when it contains the NUL character: only
      U+0000 encodes to 0, and surrogates are never 0. */
  lemma {:induction false} Utf16Nul(s: string)
    ensures 0 in Utf16(s) <==> '\0' in s
  {
    if s != [] {
      Utf16CharNul(s[0]);
      Utf16Nul(s[1..]);
      assert s == [s[0]] + s[1..];
    }
  }

  /** The encoding of a concatenation is the concatenation of the encodings. */
  lemma {:induction false} Utf16Append(a: string, b: string)
    ensures Utf16(a + b) == Utf16(a) + Utf16(b)
  {
    if a == [] {
      assert a + b == b;
    } else {
      assert (a + b)[0] == a[0];
      assert (a + b)[1..] == a[1..] + b;
      Utf16Append(a[1..], b);
    }
  }

  /** `s` without a final NUL character. */
  function WithoutNulChar(s: string): (t: string)
    ensures t <= s && |s| <= |t| + 1
  {
    if |s| > 0 && s[|s| - 1] == '\0' then s[..|s| - 1] else s
  }

  /** Dropping the terminator from the encoding is encoding the string without its final
      NUL character: U+0000 is the only character whose encoding ends in a 0 unit. */
  lemma Utf16WithoutTerminator(s: string)
    ensures WithoutTerminator(Utf16(s)) == Utf16(WithoutNulChar(s))
  {
    if s != [] {
      var last := s[|s| - 1];
      var p := s[..|s| - 1];
      assert s == p + [last];
      Utf16Append(p, [last]);
      assert Utf16([last]) == Utf16Char(last);
      Utf16CharNul(last);
      if last != '\0' {
        var u := Utf16Char(last);
        assert u[|u| - 1] in u;
      }
    }
  }

  const NEW_PANIC_MESSAGE: string := "Failed to create CefString from str."

  /** `CefString::new(s)`, and identically `From<&str> for CefString`: `from_vec` on the
      UTF-16 encoding of `s`. A final NUL character is taken for the terminator and
      dropped; any other NUL character makes it panic. */
  function New(s: string): (r: Panicking<CefString>)
    ensures r.Returns? <==> '\0' !in WithoutNulChar(s)
    ensures r.Returns? ==> r.value == Utf16(WithoutNulChar(s))
    ensures '\0' !in s ==> r == Returns(Utf16(s))
    ensures r.Panics? ==> r.message == NEW_PANIC_MESSAGE
  {
    Utf16WithoutTerminator(s);
    Utf16Nul(WithoutNulChar(s));
    Expect(FromVec(Utf16(s)), NEW_PANIC_MESSAGE)
  }

  /** A string CEF allocated and handed over with the obligation to release it once
      through `cef_string_userfree_utf16_free`; `frees` counts those calls. */
  class UserFreeString {
    const raw: RawString
    var frees: nat

    constructor (raw: RawString)
      ensures this.raw == raw && frees == 0
    {
      this.raw := raw;
      frees := 0;
    }
  }

  /** `CefString::from_userfree_cef`: converts like `from_raw`; on success it frees the
      foreign string exactly once, and on failure it returns the error before the free,
      so the string is not freed at all. */
  method FromUserfreeCef(ptr: UserFreeString?) returns (r: Result<CefString, CefStringError>)
    requires ptr != null ==> Readable(ptr.raw)
    modifies ptr
    ensures r == FromRaw(if ptr == null then Null else NonNull(ptr.raw))
    ensures ptr != null ==> ptr.frees == old(ptr.frees) + (if r.Ok? then 1 else 0)
  {
    r := FromRaw(if ptr == null then Null else NonNull(ptr.raw));
    if r.Err? {
      return;
    }
    ptr.frees := ptr.frees + 1;
  }

  /** As written, a user-free string holding a NUL before its last code unit is never
      freed: the conversion error returns before `cef_string_userfree_utf16_free`. */
  method UnconvertibleUserFreeStringLeaks() returns (r: Result<CefString, CefStringError>, frees: nat)
    ensures r == Err(Conversion) && frees == 0
  {
    var raw := RawString([0, 0x41], 2, None);
    assert Content(raw)[0] == 0;
    var s := new UserFreeString(raw);
    r := FromUserfreeCef(s);
    frees := s.frees;
  }

  /** `from_userfree_cef` with the free made before the error is returned: a non-null
      user-free string is released exactly once whatever the conversion gives. */
  method FromUserfreeCefReleasing(ptr: UserFreeString?) returns (r: Result<CefString, CefStringError>)
    requires ptr != null ==> Readable(ptr.raw)
    modifies ptr
    ensures r == FromRaw(if ptr == null then Null else NonNull(ptr.raw))
    ensures ptr != null ==> ptr.frees == old(ptr.frees) + 1
  {
    r := FromRaw(if ptr == null then Null else NonNull(ptr.raw));
    if ptr != null {
      ptr.frees := ptr.frees + 1;
    }
  }
}
