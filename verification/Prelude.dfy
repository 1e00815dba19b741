/** Shared vocabulary: optional values and 64-bit signed wrap-around. */
module Prelude {

  datatype Option<+T> = None | Some(value: T) {
    function GetOr(default: T): T {
      match this
      case Some(v) => v
      case None => default
    }
  }

  function AsSeq<A>(a: Option<A>): seq<A> {
    match a
    case Some(v) => [v]
    case None => []
  }

  const TWO_62: int := 0x4000_0000_0000_0000
  const TWO_63: int := 0x8000_0000_0000_0000
  const TWO_64: int := 0x1_0000_0000_0000_0000

  predicate IsInt64(x: int) {
    -TWO_63 <= x < TWO_63
  }

  /** The value Go's int64 arithmetic leaves of an exact integer result. */
  function Wrap64(x: int): (r: int)
    ensures IsInt64(r)
    ensures IsInt64(x) ==> r == x
    ensures (x - r) % TWO_64 == 0
  {
    var m := x % TWO_64;
    if m < TWO_63 then m else m - TWO_64
  }

  function Min(a: int, b: int): int {
    if a <= b then a else b
  }

  function Pow2(n: nat): (r: nat)
    ensures 1 <= r
  {
    if n == 0 then 1 else 2 * Pow2(n - 1)
  }

  /** A delay doubled k times and capped: what the documentation promises of retries and reconnects. */
  function Doubling(initial: int, cap: int, k: nat): int {
    Min(initial * Pow2(k), cap)
  }

  lemma {:induction false} Regroup<T>(a: seq<T>, b: seq<T>, c: seq<T>)
    ensures (a + b) + c == a + (b + c)
    ensures a + [] == a && [] + c == c
  {
  }
}
