/** Facts about Euclidean remainder and division used by the buffer models. */
module Arith {

  /** Adding a multiple of the modulus does not change a remainder. */
  lemma {:induction false} ModuloShift(a: int, b: int, total: int, q: int)
    requires total > 0
    requires a == b - total * q
    ensures a % total == b % total
  {
    var qa, ra := a / total, a % total;
    assert a == total * qa + ra;
    assert b == total * (qa + q) + ra by {
      assert total * (qa + q) == total * qa + total * q;
    }
    ModuloUnique(b, total, qa + q, ra);
  }

  /** The remainder and quotient are the unique r in [0, total) and q with b == total * q + r. */
  lemma {:induction false} ModuloUnique(b: int, total: int, q: int, r: int)
    requires total > 0 && 0 <= r < total
    requires b == total * q + r
    ensures b % total == r && b / total == q
  {
    var q0, r0 := b / total, b % total;
    assert b == total * q0 + r0;
    assert total * (q - q0) == r0 - r by {
      assert total * (q - q0) == total * q - total * q0;
    }
    if q - q0 >= 1 {
      MultipleAtLeast(total, q - q0);
    } else if q - q0 <= -1 {
      MultipleAtLeast(total, q0 - q);
    }
  }

  /** A positive multiple of a positive number is at least that number. */
  lemma MultipleAtLeast(total: int, d: int)
    requires total > 0 && d >= 1
    ensures total * d >= total
  {
  }
}
