/** The two facts about multiplication and division that the time bounds need. */
module Arithmetic {
  lemma NextMultiple(q: int, a: int, b: int)
    requires q < a && b >= 0
    ensures q * b + b <= a * b
  {
    assert (a - q - 1) * b >= 0;
  }

  lemma DivideBoth(a: int, b: int, c: int)
    requires b > 0 && a * b <= c
    ensures a <= c / b
  {
    if a > c / b {
      NextMultiple(c / b, a, b);
    }
  }
}
