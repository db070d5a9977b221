/** Facts about multiplication and Euclidean division that the solver does not find unaided. */
module Arith {

  lemma MulMono(d: int, x: int, y: int)
    requires d >= 0 && x <= y
    ensures d * x <= d * y
  {
    var k := y - x;
    assert d * y == d * x + d * k;
    MulNonNeg(d, k);
  }

  lemma {:induction false} MulNonNeg(d: int, k: int)
    requires d >= 0 && k >= 0
    ensures d * k >= 0
    decreases k
  {
    if k > 0 { MulNonNeg(d, k - 1); assert d * k == d * (k - 1) + d; }
  }

  lemma DivMonotone(a: int, b: int, d: int)
    requires d > 0 && 0 <= a <= b
    ensures 0 <= a / d <= b / d
  {
    var qa, ra := a / d, a % d;
    var qb, rb := b / d, b % d;
    assert a == d * qa + ra && 0 <= ra < d;
    assert b == d * qb + rb && 0 <= rb < d;
    if qa < 0 {
      MulMono(d, qa, -1);
      assert false;
    }
    if qa > qb {
      MulMono(d, qb + 1, qa);
      assert false;
    }
  }

  lemma FloorAdd(a: int, b: int, d: int)
    requires d > 0
    ensures a / d + b / d <= (a + b) / d
  {
    var qa, ra := a / d, a % d;
    var qb, rb := b / d, b % d;
    assert a == d * qa + ra && 0 <= ra;
    assert b == d * qb + rb && 0 <= rb;
    var q := (a + b) / d;
    var r := (a + b) % d;
    assert a + b == d * q + r && r < d;
    assert d * qa + d * qb == d * (qa + qb);
    if q < qa + qb {
      MulMono(d, q + 1, qa + qb);
      assert false;
    }
  }

  lemma MulAdd(s: int, a: int, b: int)
    ensures s * a + s * b == s * (a + b)
  {
  }

  lemma MulDiv(s: int, t: int)
    requires t > 0
    ensures s * t / t == s
  {
    var q, r := s * t / t, s * t % t;
    assert s * t == t * q + r && 0 <= r < t;
    if q < s {
      MulMono(t, q + 1, s);
      assert false;
    }
    if q > s {
      MulMono(t, s + 1, q);
      assert false;
    }
  }

  /** Euclidean division of a multiple of `d` plus a remainder below `d`. */
  lemma DivModUnique(q: int, k: int, d: int)
    requires d > 0 && 0 <= k < d
    ensures (q * d + k) / d == q && (q * d + k) % d == k
  {
    var x := q * d + k;
    var q2, r2 := x / d, x % d;
    assert x == d * q2 + r2 && 0 <= r2 < d;
    if q2 < q {
      MulMono(d, q2 + 1, q);
      assert false;
    }
    if q2 > q {
      MulMono(d, q + 1, q2);
      assert false;
    }
  }
}
