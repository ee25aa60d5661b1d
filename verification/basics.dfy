/** Machine-level building blocks shared by every module of the viewer model:
    fixed-width unsigned integers, bytes, Windows HRESULT codes, raw 32-bit
    floats and the optional-value wrapper that stands in for null pointers
    and `std::optional`. */
module Basics {

  /** 2^32, the modulus of `UINT` / `uint32_t` arithmetic. */
  const U32_LIMIT: int := 0x1_0000_0000

  type u32 = x: int | 0 <= x < 0x1_0000_0000
  type byte = x: int | 0 <= x < 0x100

  /** Unsigned 32-bit arithmetic: the mathematical value reduced modulo 2^32,
      which is what a `UINT` product or a `(UINT)` cast of a `size_t` yields. */
  function Wrap32(x: nat): (r: u32)
    ensures x < U32_LIMIT ==> r == x
    ensures r <= x
  {
    x % U32_LIMIT
  }

  /** A Windows HRESULT: a signed 32-bit status code; negative means failure. */
  type HResult = x: int | -0x8000_0000 <= x < 0x8000_0000

  /** The failure codes, i.e. those for which `FAILED(hr)` holds. */
  type FailureCode = x: int | -0x8000_0000 <= x < 0 witness -1

  predicate Succeeded(hr: HResult) {
    hr >= 0
  }

  /** `static_cast<unsigned int>(hr)`: two's-complement reinterpretation. */
  function AsUnsigned(hr: HResult): (r: u32)
    ensures hr >= 0 ==> r == hr
    ensures hr < 0 ==> r >= 0x8000_0000 && r - U32_LIMIT == hr
  {
    if hr < 0 then hr + U32_LIMIT else hr
  }

  /** A 32-bit float kept as its IEEE-754 bit pattern: the core only copies floats. */
  datatype Float = Float(bits: bv32)

  /** An absent or present value; `None` plays the role of a null pointer. */
  datatype Option<+T> = None | Some(value: T)

  /** The outcome of a foreign factory call (`Create…`): the created object, or the
      failing HRESULT with no object (the loaders clear their out-parameter on failure). */
  datatype Created<+T> = Created(value: T) | CallFailed(hr: FailureCode)
}
