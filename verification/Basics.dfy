/** Shared vocabulary: optional values, results, and Go's narrowing conversion to int32. */
module Basics {
  datatype Option<+T> = None | Some(value: T)

  datatype Result<+T, +E> = Ok(value: T) | Err(error: E)

  /** Opaque identifiers (UUIDs); zero stands for uuid.Nil. */
  type Id = nat
  const NIL: Id := 0

  const TWO_TO_31: int := 0x8000_0000
  const TWO_TO_32: int := 0x1_0000_0000

  function Min(a: int, b: int): int { if a < b then a else b }

  function Max(a: int, b: int): int { if a < b then b else a }

  /** Go's int32(x): keep the low 32 bits and read them as two's complement. */
  function Int32(x: int): int {
    var low := x % TWO_TO_32;
    if low < TWO_TO_31 then low else low - TWO_TO_32
  }

  /** Narrowing keeps the number up to a multiple of 2^32, and is the identity on what an int32 holds. */
  lemma Int32Wraps(x: int)
    ensures -TWO_TO_31 <= Int32(x) < TWO_TO_31
    ensures exists n :: x == Int32(x) + n * TWO_TO_32
    ensures Int32(x) == x <==> -TWO_TO_31 <= x < TWO_TO_31
  {
    var q := x / TWO_TO_32;
    assert x == x % TWO_TO_32 + q * TWO_TO_32;
    if Int32(x) < 0 {
      assert x == Int32(x) + (q + 1) * TWO_TO_32;
    } else {
      assert x == Int32(x) + q * TWO_TO_32;
    }
  }

  /** Narrowing a limit can only tighten it, and it is exact precisely for limits that fit. */
  lemma Int32Tightens(limit: int)
    requires limit >= -TWO_TO_31
    ensures Int32(limit) <= limit
    ensures Int32(limit) == limit <==> limit < TWO_TO_31
  {
    if limit < 0 {
      assert limit % TWO_TO_32 == limit + TWO_TO_32;
    }
  }

  /** A lookup by a unique column: the position of a row that matches, if any does. */
  function IndexOf<T>(rows: seq<T>, matches: T -> bool): (i: Option<nat>)
    ensures i.Some? ==> i.value < |rows| && matches(rows[i.value])
    ensures i.None? ==> forall k :: 0 <= k < |rows| ==> !matches(rows[k])
  {
    if rows == [] then None
    else if matches(rows[|rows| - 1]) then Some(|rows| - 1)
    else IndexOf(rows[..|rows| - 1], matches)
  }
}
