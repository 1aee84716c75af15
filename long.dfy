/**
 * Java `long` arithmetic. A grid position is a `long[]`, and Java adds and
 * negates longs modulo 2^64 with the result read back into
 * [-2^63, 2^63). `Wrap` makes that reduction explicit for the unbounded
 * integers of the model.
 */
module Long {

  const Min: int := -0x8000_0000_0000_0000
  const Max: int := 0x7FFF_FFFF_FFFF_FFFF
  const Modulus: int := 0x1_0000_0000_0000_0000

  /** True if `x` is a value of the Java type `long`. */
  predicate InRange(x: int) {
    Min <= x <= Max
  }

  /** True if every component of `p` is a Java `long`. */
  predicate AllInRange(p: seq<int>) {
    forall i :: 0 <= i < |p| ==> InRange(p[i])
  }

  /** The `long` that Java's two's-complement arithmetic yields for the exact value `x`. */
  function Wrap(x: int): (r: int)
    ensures InRange(r)
    ensures (x - r) % Modulus == 0
    ensures InRange(x) ==> r == x
  {
    (x - Min) % Modulus + Min
  }

  /** Two exact values that differ by a multiple of 2^64 wrap to the same `long`. */
  lemma WrapCongruent(x: int, y: int)
    requires (x - y) % Modulus == 0
    ensures Wrap(x) == Wrap(y)
  {
    var k := (x - y) / Modulus;
    assert x - Min == (y - Min) + k * Modulus;
    ModuloShift(y - Min, k);
  }

  /** Adding a multiple of 2^64 does not change the remainder modulo 2^64. */
  lemma ModuloShift(a: int, k: int)
    ensures (a + k * Modulus) % Modulus == a % Modulus
  {
  }

  /** Java's `a + b` on two longs: wrapping an operand first does not change the sum. */
  lemma WrapAdd(x: int, y: int)
    ensures Wrap(Wrap(x) + Wrap(y)) == Wrap(x + y)
  {
  }

  /** Adding a long and then adding its Java negation restores the original long. */
  lemma AddThenNegate(a: int, d: int)
    requires InRange(a)
    ensures Wrap(Wrap(a + d) + Wrap(-d)) == a
  {
  }
}
