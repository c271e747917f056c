/** Rounding as Math.ceil, Math.floor and Math.round define it, on exact numbers. */
module Numbers {
  function Ceil(x: real): (c: int)
    ensures x <= c as real < x + 1.0
  {
    -((-x).Floor)
  }

  /** Math.round: the nearest integer, halves upward. */
  function Round(x: real): (r: int)
    ensures r as real - 0.5 <= x < r as real + 0.5
  {
    (x + 0.5).Floor
  }

  function Max(x: real, y: real): real {
    if x < y then y else x
  }

  predicate Whole(x: real) {
    x == x.Floor as real
  }

  lemma CeilOfWhole(x: real)
    requires Whole(x)
    ensures Ceil(x) as real == x
  {
    hide Ceil;
    var k, c := x.Floor, Ceil(x);
    assert k as real <= c as real < k as real + 1.0;
    assert k <= c < k + 1;
  }

  // Products and quotients by name, so that proofs can treat them as single terms.

  function Product(x: real, y: real): real {
    x * y
  }

  function Times(rate: real, n: int): real {
    rate * n as real
  }

  function Per(x: real, n: int): real
    requires n != 0
  {
    x / n as real
  }

  lemma ProductAdd(a: real, b: real, y: real)
    ensures Product(a + b, y) == Product(a, y) + Product(b, y)
    ensures Product(0.0, y) == 0.0
  {
  }

  lemma ProductPositive(x: real, y: real)
    requires x > 0.0 && y > 0.0
    ensures Product(x, y) > 0.0
  {
  }

  lemma TimesAdd(rate: real, n: int, m: int)
    ensures Times(rate, n + m) == Times(rate, n) + Times(rate, m)
    ensures Times(rate, 0) == 0.0
    ensures Times(rate, 1) == rate
  {
    assert (n + m) as real == n as real + m as real;
  }

  lemma TimesPositive(rate: real, n: int)
    requires rate > 0.0 && n > 0
    ensures Times(rate, n) > 0.0
  {
  }

  lemma PerTimes(x: real, n: int)
    requires n != 0
    ensures Times(Per(x, n), n) == x
    ensures x > 0.0 && n > 0 ==> Per(x, n) > 0.0
  {
  }
}
