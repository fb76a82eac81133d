/**
 * Java's 32-bit `int`: the range of values and the two's-complement
 * wrap-around that `AtomicInteger.getAndIncrement` performs on overflow.
 */
module JavaInt {

  const INT_MIN: int := -0x8000_0000
  const INT_MAX: int := 0x7FFF_FFFF
  /** The number of distinct `int` values. */
  const TWO32: int := 0x1_0000_0000

  predicate IsInt(x: int) {
    INT_MIN <= x <= INT_MAX
  }

  /** The `int` that an exact integer result becomes once Java truncates it to 32 bits. */
  function Wrap(x: int): (r: int)
    ensures IsInt(r)
    ensures IsInt(x) ==> r == x
    ensures r == x - ((x - INT_MIN) / TWO32) * TWO32
  {
    (x - INT_MIN) % TWO32 + INT_MIN
  }

  /** Incrementing a wrapped value wraps like incrementing the exact one. */
  lemma WrapIncrement(x: int)
    ensures Wrap(Wrap(x) + 1) == Wrap(x + 1)
  {
    var q := (x - INT_MIN) / TWO32;
    var r := (x - INT_MIN) % TWO32;
    assert x - INT_MIN == q * TWO32 + r;
    if r + 1 < TWO32 {
      assert (x + 1 - INT_MIN) / TWO32 == q;
    } else {
      assert (x + 1 - INT_MIN) / TWO32 == q + 1;
    }
  }

  /** Two exact integers less than 2^32 apart never wrap to the same `int`. */
  lemma {:induction false} WrapInjectiveWithinPeriod(a: int, b: int)
    requires a < b < a + TWO32
    ensures Wrap(a) != Wrap(b)
  {
    var d := (b - INT_MIN) / TWO32 - (a - INT_MIN) / TWO32;
    assert Wrap(b) - Wrap(a) == (b - a) - d * TWO32;
    if d <= 0 {
      assert d * TWO32 <= 0;
    } else {
      assert d * TWO32 >= TWO32;
    }
  }
}
