/** Types shared by every part of the model. */
module Basics {

  newtype byte = b: int | 0 <= b < 256

  type pos = n: nat | 0 < n witness 1

  /** Nanoseconds since the steady clock's epoch. */
  type Time = nat

  datatype Option<+T> = None | Some(value: T)

  datatype Side = Client | Upstream {
    function Other(): Side {
      if Client? then Upstream else Client
    }
  }

  /** One value per side of a proxied connection. */
  datatype Pair<T> = Pair(client: T, upstream: T) {
    function At(side: Side): T {
      if side.Client? then client else upstream
    }

    function Put(side: Side, value: T): Pair<T> {
      if side.Client? then Pair(value, upstream) else Pair(client, value)
    }
  }

  const NS_PER_SECOND: nat := 1_000_000_000
  const TWO_TO_THE_64: nat := 0x1_0000_0000_0000_0000

  /** The value a `uint64_t` (or 64-bit `size_t`) holds after an operation with exact result `x`. */
  function Wrap64(x: int): nat {
    x % TWO_TO_THE_64
  }

  function Min(a: int, b: int): int {
    if a <= b then a else b
  }

  function Max(a: int, b: int): int {
    if a <= b then b else a
  }

  ghost predicate NonDecreasing(times: seq<Time>) {
    forall i, j :: 0 <= i <= j < |times| ==> times[i] <= times[j]
  }
}
