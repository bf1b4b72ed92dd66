/** The crate root: raw identities, the binding's error type and the status-to-Result
    rule (`uvret`) that every wrapper around a libuv call shares. */
module Crate {

  /** A raw pointer, kept only as an identity; 0 is the null pointer. */
  type Ptr = nat

  const NULL: Ptr := 0

  datatype Option<+T> = None | Some(value: T)

  /** The libuv error code the binding raises itself (its Unix value). */
  const UV_ENOMEM: int := -12

  /** The number of values of a C `unsigned int` (32 bits). */
  const CUINT_RANGE: nat := 0x1_0000_0000

  /** `as c_uint` on a `usize`: keeps the low 32 bits, so a count that fits is unchanged and a
      larger one wraps around. */
  function AsCUint(n: nat): (r: nat)
    ensures r < CUINT_RANGE
    ensures n < CUINT_RANGE ==> r == n
    ensures (n - r) % CUINT_RANGE == 0
  {
    n % CUINT_RANGE
  }

  /** An error of the binding. The table that turns a native code into a named error
      (`Error::from`) is not part of this model: an error keeps the code it was made from. */
  datatype Error = Error(code: int)

  function FromCode(code: int): Error
  {
    Error(code)
  }

  const ENOMEM: Error := FromCode(UV_ENOMEM)

  /** `crate::Result<T>`; `:-` plays the part of Rust's `?`. */
  datatype Result<+T> = Ok(value: T) | Err(error: Error) {
    predicate IsFailure() {
      Err?
    }

    function PropagateFailure<U>(): Result<U>
      requires Err?
    {
      Err(error)
    }

    function Extract(): T
      requires Ok?
    {
      value
    }
  }

  /** `uvret`: a negative status is an error carrying that code; any other status,
      positive ones included, is plain success. */
  function UvRet(code: int): (r: Result<()>)
    ensures r.Err? <==> code < 0
    ensures r.Err? ==> r.error == FromCode(code)
  {
    if code < 0 then Err(FromCode(code)) else Ok(())
  }

  /** The value of a non-negative status is discarded: all of them give the same result. */
  lemma UvRetDiscardsValue(a: int, b: int)
    requires 0 <= a && 0 <= b
    ensures UvRet(a) == UvRet(b) == Ok(())
  {
  }
}
