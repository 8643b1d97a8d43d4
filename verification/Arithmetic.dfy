// Products and quotients, one step at a time.
module Arithmetic {

  lemma TimesKeepsOrder(a: int, b: int, c: int)
    requires a <= b && 0 <= c
    ensures a * c <= b * c && c * a <= c * b
  {}

  lemma OneMoreTimes(n: int, c: int)
    ensures n * c == (n - 1) * c + c
  {}

  lemma Quotient(x: int, t: int)
    requires t > 0
    ensures t * (x / t) <= x < t * (x / t) + t
  {}

  lemma QuotientKeepsOrder(x: int, y: int, t: int)
    requires t > 0 && x <= y
    ensures x / t <= y / t && 0 / t == 0
  {
    Quotient(x, t);
    Quotient(y, t);
    if x / t > y / t { TimesKeepsOrder(y / t + 1, x / t, t); }
  }
}
