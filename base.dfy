/** Shared value types: an optional value, and GLib's 32-bit unsigned counter (guint). */
module Base {

  datatype Option<+T> = None | Some(value: T)

  const GuintModulus: int := 0x1_0000_0000

  /** A `guint`: arithmetic on it wraps around modulo 2^32. */
  type Guint = x: int | 0 <= x < 0x1_0000_0000

  /** `++c` on a guint. */
  function Inc(c: Guint): (r: Guint)
    ensures c < GuintModulus - 1 ==> r == c + 1
    ensures c == GuintModulus - 1 ==> r == 0
  {
    (c + 1) % GuintModulus
  }

  /** `c--` on a guint: zero wraps to 2^32 - 1. */
  function Dec(c: Guint): (r: Guint)
    ensures c > 0 ==> r == c - 1
    ensures c == 0 ==> r == GuintModulus - 1
  {
    (c - 1) % GuintModulus
  }

  /** Concatenation is associative; stated once so that proofs can regroup explicitly. */
  lemma Append3<T>(a: seq<T>, b: seq<T>, c: seq<T>)
    ensures a + b + c == a + (b + c)
  {
  }

  /** The value a guint shows when it is printed with `%d` (reinterpreted as a signed 32-bit int). */
  function AsGint(c: Guint): (r: int)
    ensures -0x8000_0000 <= r < 0x8000_0000
    ensures r % GuintModulus == c
  {
    if c < 0x8000_0000 then c else c - GuintModulus
  }
}
