/** The JavaScript arithmetic the models share, over reals. */
module Numbers {

  function Max(a: real, b: real): real {
    if a < b then b else a
  }

  function Min(a: real, b: real): real {
    if b < a then b else a
  }

  function Clamp01(x: real): real {
    Min(1.0, Max(0.0, x))
  }

  predicate Unit(x: real) {
    0.0 <= x <= 1.0
  }

  function Abs(a: real): real {
    if a < 0.0 then -a else a
  }

  /** `Math.round`: to the nearest integer, halves up. */
  function Round(x: real): (n: int)
    ensures x - 0.5 < n as real <= x + 0.5
  {
    (x + 0.5).Floor
  }

  lemma RoundIsMonotone(x: real, y: real)
    requires x <= y
    ensures Round(x) <= Round(y)
  {
    assert Round(x) as real <= x + 0.5 <= y + 0.5;
  }

  lemma RoundOfWhole(n: int)
    ensures Round(n as real) == n
  {
  }

  lemma NonnegativeProduct(x: real, y: real)
    requires x >= 0.0 && y >= 0.0
    ensures x * y >= 0.0
  {
  }

  lemma DivideBack(x: real, y: real)
    requires y > 0.0
    ensures (x / y) * y == x
  {
  }

  lemma SignOf(x: real, a: real)
    requires a > 0.0 && x * a >= 0.0
    ensures x >= 0.0
  {
    assert x < 0.0 ==> (-x) * a > 0.0;
  }

  lemma PositiveProduct(x: real, y: real)
    requires x > 0.0 && y > 0.0
    ensures x * y > 0.0
  {
  }
}
