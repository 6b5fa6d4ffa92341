/** Signed 64-bit arithmetic. */
module Words {
  const HALF := 0x8000_0000_0000_0000
  const WORD := 0x1_0000_0000_0000_0000

  predicate Is64(x: int) { -HALF <= x < HALF }

  type Word = x: int | Is64(x)

  /** What is left of a result that does not fit. */
  function Wrap(x: int): Word { (x + HALF) % WORD - HALF }

  lemma WrapExact(x: int)
    ensures Wrap(x) == x <==> Is64(x)
    ensures exists k :: Wrap(x) == x + k * WORD
  {
    var k := -((x + HALF) / WORD);
    assert Wrap(x) == x + k * WORD;
  }

  lemma WrapShift(x: int, k: int)
    ensures Wrap(x + k * WORD) == Wrap(x)
  {
    var y := x + HALF;
    var q := y / WORD;
    assert y == q * WORD + y % WORD;
    assert y + k * WORD == (q + k) * WORD + y % WORD;
    Remainder(q + k, y % WORD);
  }

  lemma Remainder(q: int, r: int)
    requires 0 <= r < WORD
    ensures (q * WORD + r) % WORD == r
  {
  }

  /** Two numbers leave the same exactly when they differ by a multiple of 2^64. */
  lemma WrapSameIff(x: int, y: int)
    ensures Wrap(x) == Wrap(y) <==> exists k :: x == y + k * WORD
  {
    if Wrap(x) == Wrap(y) {
      var p, q := (x + HALF) / WORD, (y + HALF) / WORD;
      assert x == y + (p - q) * WORD;
    }
    if k :| x == y + k * WORD {
      WrapShift(y, k);
    }
  }

  /** Wrapping early does not change a product. */
  lemma WrapProduct(x: int, m: int)
    ensures Wrap(Wrap(x) * m) == Wrap(x * m)
  {
    WrapExact(x);
    var k :| Wrap(x) == x + k * WORD;
    assert Wrap(x) * m == x * m + (k * m) * WORD by { Distribute(x, k, m); }
    WrapShift(x * m, k * m);
  }

  lemma Distribute(x: int, k: int, m: int)
    ensures (x + k * WORD) * m == x * m + (k * m) * WORD
  {
    assert (x + k * WORD) * m == x * m + k * WORD * m;
    assert k * WORD * m == (k * m) * WORD;
  }
}
