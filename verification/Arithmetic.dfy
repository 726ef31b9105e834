/** What the other modules share on division and remainders. */
module Arithmetic {

  function Min(a: int, b: int): int {
    if a < b then a else b
  }

  function Power(base: nat, n: nat): (p: nat)
    ensures base > 0 ==> p > 0
  {
    if n == 0 then 1 else base * Power(base, n - 1)
  }

  lemma MulBounds(q: int, c: nat)
    ensures q >= 1 ==> q * c >= c
    ensures q <= 0 ==> q * c <= 0
    ensures q <= -1 ==> q * c + c <= 0
  {
    assert q >= 1 ==> (q - 1) * c >= 0;
    assert q <= -1 ==> (q + 1) * c <= 0;
  }

  lemma ModUnique(x: int, q: int, c: nat, r: nat)
    requires c > 0 && r < c && x == q * c + r
    ensures x % c == r
  {
    var d := q - x / c;
    assert x == (x / c) * c + x % c;
    assert d * c == q * c - (x / c) * c == x % c - r;
    MulBounds(d, c);
  }

  lemma ModAdd(a: int, d: int, c: nat)
    requires c > 0
    ensures (a % c + d) % c == (a + d) % c
  {
    var q, r := (a + d) / c, (a + d) % c;
    assert a == (a / c) * c + a % c && a + d == q * c + r;
    assert a % c + d == q * c - (a / c) * c + r == (q - a / c) * c + r;
    ModUnique(a % c + d, q - a / c, c, r);
  }

  lemma ModDistinct(a: int, b: int, c: nat)
    requires a < b < a + c
    ensures a % c != b % c
  {
    var q := b / c - a / c;
    assert a == (a / c) * c + a % c && b == (b / c) * c + b % c;
    assert b - a == (b / c) * c - (a / c) * c + b % c - a % c == q * c + b % c - a % c;
    MulBounds(q, c);
  }

  lemma ModUniqueShift(x: int, c: nat)
    requires c > 0
    ensures (x + c) % c == x % c
  {
    ModAdd(x, c, c);
    ModAdd(x, 0, c);
    assert x + c == (x / c + 1) * c + x % c;
    ModUnique(x + c, x / c + 1, c, x % c);
  }
}
