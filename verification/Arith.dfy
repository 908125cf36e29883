// Division and remainder by a positive number that is not a constant.

module Arith {

  lemma MulMono(m: int, a: int, b: int)
    requires 0 <= m && a <= b
    ensures m * a <= m * b
  {
  }

  lemma DivMono(m: int, a: int, b: int)
    requires 1 <= m && a <= b
    ensures a / m <= b / m
  {
    var x, y := a / m, b / m;
    assert m * x <= a && b < m * y + m;
    if y < x { MulMono(m, y + 1, x); }
  }

  lemma ModUnique(x: int, m: int, q: int, r: int)
    requires x == m * q + r && 0 <= r < m
    ensures x % m == r && x / m == q
  {
    var y := x / m;
    if y < q { MulMono(m, y + 1, q); } else if q < y { MulMono(m, q + 1, y); }
  }

  lemma ModStep(x: int, m: int)
    requires 1 <= m
    ensures (x % m + 1) % m == (x + 1) % m
  {
    var q, r := x / m, x % m;
    assert x == m * q + r;
    if r + 1 < m {
      ModUnique(x + 1, m, q, r + 1);
    } else {
      assert x + 1 == m * (q + 1);
      ModUnique(x + 1, m, q + 1, 0);
    }
  }

  // Within one lap, remainders are distinct.
  lemma ModDistinct(x: int, y: int, m: int)
    requires 1 <= m && x <= y < x + m && x % m == y % m
    ensures x == y
  {
    var q, p := x / m, y / m;
    assert x == m * q + x % m && y == m * p + y % m;
    DivMono(m, x, y);
    if q < p { MulMono(m, q + 1, p); }
  }

  lemma ModLap(x: int, m: int)
    requires 1 <= m
    ensures (x + m) % m == x % m
  {
    assert x + m == m * (x / m + 1) + x % m;
    ModUnique(x + m, m, x / m + 1, x % m);
  }

  // Two numbers less than a lap apart.
  lemma ModNear(x: int, y: int, m: int)
    requires 1 <= m && x < y + m && y < x + m && x % m == y % m
    ensures x == y
  {
    if x <= y { ModDistinct(x, y, m); } else { ModDistinct(y, x, m); }
  }
}
