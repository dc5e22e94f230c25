/** Go's unsigned 64-bit integers: additions and subtractions wrap around. */
module Uint64 {
  const TWO64: nat := 0x1_0000_0000_0000_0000
  const TWO63: nat := 0x8000_0000_0000_0000

  type U64 = x: nat | x < TWO64

  function AddU64(a: U64, b: U64): U64 { if a + b < TWO64 then a + b else a + b - TWO64 }

  function SubU64(a: U64, b: U64): U64 { if a >= b then a - b else a - b + TWO64 }

  /** The conversion of a uint64 to int. */
  function AsInt(x: U64): int { if x < TWO63 then x else x - TWO64 }

  /** What is left of a number in 64 bits. */
  ghost function Wrap(x: int): U64 { x % TWO64 }

  lemma {:induction false} WrapMultiple(x: int, q: int)
    ensures Wrap(q * TWO64 + x) == Wrap(x)
  {
  }

  lemma {:induction false} WrapAdd(x: int, d: int)
    ensures Wrap(Wrap(x) + d) == Wrap(x + d)
  {
    assert x + d == (x / TWO64) * TWO64 + (Wrap(x) + d);
    WrapMultiple(Wrap(x) + d, x / TWO64);
  }

  lemma {:induction false} WrapSum(x: int, y: int)
    ensures Wrap(x + y) == Wrap(Wrap(x) + Wrap(y))
  {
    WrapAdd(x, y);
    WrapAdd(y, Wrap(x));
  }

  lemma {:induction false} WrapCong(a: int, b: int, x: int, y: int)
    requires Wrap(a) == Wrap(b) && Wrap(x) == Wrap(y)
    ensures Wrap(a + x) == Wrap(b + y)
  {
    WrapSum(a, x);
    WrapSum(b, y);
  }

  lemma {:induction false} WrapSmall(x: U64)
    ensures Wrap(x) == x
  {
  }

  /** Adding changes nothing in 64 bits if and only if nothing in 64 bits is added. */
  lemma {:induction false} WrapSame(x: int, d: int)
    ensures Wrap(x + d) == Wrap(x) <==> Wrap(d) == 0
  {
    WrapSum(x, d);
    if Wrap(x) + Wrap(d) >= TWO64 {
      WrapMultiple(Wrap(x) + Wrap(d) - TWO64, 1);
    }
  }

  lemma {:induction false} AddWrap(x: int, d: U64)
    ensures AddU64(Wrap(x), d) == Wrap(x + d)
  {
    WrapAdd(x, d);
    if Wrap(x) + d >= TWO64 {
      WrapMultiple(Wrap(x) + d - TWO64, 1);
    }
  }

  lemma {:induction false} SubWrap(x: int, y: int)
    ensures SubU64(Wrap(x), Wrap(y)) == Wrap(x - y)
  {
    var q := x / TWO64 - y / TWO64;
    assert x - y == q * TWO64 + (Wrap(x) - Wrap(y));
    WrapMultiple(Wrap(x) - Wrap(y), q);
    if Wrap(x) < Wrap(y) {
      WrapMultiple(Wrap(x) - Wrap(y), 1);
    }
  }
}

module Wrappers {
  datatype Option<T> = None | Some(value: T)

  datatype Result<T> = Ok(value: T) | Err(error: string)
}
