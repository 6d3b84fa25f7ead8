/** Result types and machine integers shared by every part of the model. */
module Common {

  datatype Option<+T> = None | Some(value: T)

  datatype Result<+T, +E> = Ok(value: T) | Err(error: E) {
    predicate IsFailure() {
      Err?
    }

    function PropagateFailure<U>(): Result<U, E>
      requires Err?
    {
      Err(error)
    }

    function Extract(): T
      requires Ok?
    {
      value
    }
  }

  const U64_LIMIT: int := 0x1_0000_0000_0000_0000
  const S64_LIMIT: int := 0x8000_0000_0000_0000

  type u64 = x: int | 0 <= x < U64_LIMIT
  type s64 = x: int | -S64_LIMIT <= x < S64_LIMIT

  /** Unsigned addition as the kernel performs it: modulo 2^64. */
  function WrapU64(x: int): u64 {
    x % U64_LIMIT
  }

  /** Two's complement addition as the kernel performs it. */
  function WrapS64(x: int): s64 {
    (x + S64_LIMIT) % U64_LIMIT - S64_LIMIT
  }

  function SatAdd(x: u64, y: u64): u64 {
    if x + y < U64_LIMIT then x + y else U64_LIMIT - 1
  }

  function SatAddS64(x: s64, y: s64): s64 {
    if x + y >= S64_LIMIT then S64_LIMIT - 1
    else if x + y < -S64_LIMIT then -S64_LIMIT
    else x + y
  }

  function SatSub(x: u64, y: u64): u64 {
    if x >= y then x - y else 0
  }

  lemma Regroup<T>(a: seq<T>, b: seq<T>, c: seq<T>)
    ensures a + (b + c) == (a + b) + c
  {
  }

  /** Wrapping at every step is the same as wrapping the exact total once. */
  lemma WrapU64Absorbs(x: int, d: int)
    ensures WrapU64(WrapU64(x) + d) == WrapU64(x + d)
  {
    assert x == (x / U64_LIMIT) * U64_LIMIT + WrapU64(x);
    ModShift(WrapU64(x) + d, x / U64_LIMIT);
  }

  lemma WrapS64Absorbs(x: int, d: int)
    ensures WrapS64(WrapS64(x) + d) == WrapS64(x + d)
  {
    var y := x + S64_LIMIT;
    assert y == (y / U64_LIMIT) * U64_LIMIT + y % U64_LIMIT;
    ModShift(WrapS64(x) + d + S64_LIMIT, y / U64_LIMIT);
  }

  lemma ModShift(x: int, k: int)
    ensures (x + k * U64_LIMIT) % U64_LIMIT == x % U64_LIMIT
  {
    var q := x / U64_LIMIT;
    assert x + k * U64_LIMIT == (q + k) * U64_LIMIT + x % U64_LIMIT;
  }
}
