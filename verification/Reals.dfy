/** The smaller and the larger of two reals, and two facts about products. */
module Reals {

  function Min(x: real, y: real): real {
    if x <= y then x else y
  }

  function Max(x: real, y: real): real {
    if x >= y then x else y
  }

  lemma Scale(x: real, y: real, k: real)
    requires x <= y && 0.0 <= k
    ensures x * k <= y * k
  {
    assert 0.0 <= (y - x) * k;
  }

  lemma Shrinks(w: real, f: real)
    requires 0.0 <= w && f <= 1.0
    ensures w * f <= w
  {
    assert 0.0 <= w * (1.0 - f);
  }
}
