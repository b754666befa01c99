/** Facts about products, quotients and remainders that the index computations of several components share. */
module Modular {

  lemma Product(a: nat, b: nat)
    ensures 0 <= a * b && a * b == b * a
  {
  }

  lemma NextMultiple(a: nat, b: nat)
    ensures (a + 1) * b == a * b + b
  {
  }

  lemma MultipleIsFar(n: int, d: int)
    requires n > 0
    ensures d >= 1 ==> n * d >= n
    ensures d <= -1 ==> n * d <= -n
  {
  }

  lemma DivModUnique(x: int, n: int, q: int, r: int)
    requires 0 <= r < n && x == n * q + r
    ensures x / n == q && x % n == r
  {
    var d := x / n - q;
    assert x == n * (x / n) + x % n;
    assert n * d == r - x % n;
    MultipleIsFar(n, d);
  }

  lemma AddModulus(a: int, n: int)
    requires n > 0
    ensures (a + n) % n == a % n
  {
    DivModUnique(a + n, n, a / n + 1, a % n);
  }
}
