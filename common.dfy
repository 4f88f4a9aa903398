/** Unsigned 32-bit integers, failure-carrying results and the early-return list scan shared by the model. */
module Common {

  /** A value of a C++ `std::uint32_t` (the Windows `UINT`). */
  type u32 = x: int | 0 <= x < 0x1_0000_0000

  /** Unsigned 32-bit wrap-around of an arithmetic result. */
  function Wrap32(x: int): (r: u32)
    ensures 0 <= x < 0x1_0000_0000 ==> r == x
  {
    x % 0x1_0000_0000
  }

  function Min(a: u32, b: u32): u32 { if a <= b then a else b }
  function Max(a: u32, b: u32): u32 { if a >= b then a else b }

  datatype Option<+T> = None | Some(value: T)

  /** A value, or the error a throwing operation would raise. */
  datatype Result<+T, +E> = Success(value: T) | Failure(error: E)

  /** Success without a value, or the error a throwing operation would raise. */
  datatype Outcome<+E> = Pass | Fail(error: E)

  /**
   * The index of the first entry of `s` that is one of `wanted`, scanning in
   * list order: the shape of every `for (...) if (...) return ...;` loop in
   * the model.
   */
  function FirstIn<T(==)>(s: seq<T>, wanted: set<T>): (r: Option<nat>)
    ensures r.None? <==> forall i :: 0 <= i < |s| ==> s[i] !in wanted
    ensures r.Some? ==> r.value < |s| && s[r.value] in wanted
    ensures r.Some? ==> forall j :: 0 <= j < r.value ==> s[j] !in wanted
  {
    if |s| == 0 then None
    else if s[0] in wanted then Some(0)
    else
      match FirstIn(s[1..], wanted)
      case None => None
      case Some(i) => Some(i + 1)
  }
}
