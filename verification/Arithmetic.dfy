/** The few facts about products and quotients that the larger proofs lean on. */
module Arithmetic {

  lemma Scale(a: int, b: int, c: int)
    requires a <= b && c >= 0
    ensures a * c <= b * c
  {}

  lemma Distribute(a: int, b: int, c: int)
    ensures (a + b) * c == a * c + b * c && c * (a + b) == c * a + c * b
  {}

  lemma Cancel(x: real, n: real)
    requires n != 0.0
    ensures x / n * n == x
  {}

  lemma SameFactor(a: real, b: real, n: real)
    requires n != 0.0 && a * n == b * n
    ensures a == b
  {}

  lemma ScaleReal(a: real, b: real, n: real)
    requires a <= b && n >= 0.0
    ensures a * n <= b * n && n * a <= n * b
  {}

  lemma DescaleReal(a: real, b: real, n: real)
    requires n > 0.0 && a * n <= b * n
    ensures a <= b
  {}

  lemma DistributeReal(a: real, b: real, c: real)
    ensures c * (a + b) == c * a + c * b
  {}
}
