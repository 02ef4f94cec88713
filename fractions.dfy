/** Facts about the fraction correct/total of two counts, kept apart from the rest of the model. */
module Fractions {

  lemma ProductSign(a: real, b: real)
    requires a > 0.0
    ensures b < 0.0 ==> a * b < 0.0
    ensures b > 0.0 ==> a * b > 0.0
  {
  }

  /** correct/total lies in [0, 1] when correct <= total. */
  lemma QuotientBounds(correct: nat, total: nat)
    requires 0 < total && correct <= total
    ensures 0.0 <= correct as real / total as real <= 1.0
  {
    var c, t := correct as real, total as real;
    var q := c / t;
    assert c == q * t;
    var b := 1.0 - q;
    assert t - c == t * b;
    ProductSign(t, q);
    ProductSign(t, b);
  }

  /** For t > 0, c/t >= 0.7 exactly when 10·c >= 7·t. */
  lemma RealThreshold(c: real, t: real)
    requires t > 0.0
    ensures c / t >= 0.7 <==> 10.0 * c >= 7.0 * t
  {
    var q := c / t;
    assert c == q * t;
    var b := 10.0 * q - 7.0;
    assert 10.0 * c - 7.0 * t == t * b;
    ProductSign(t, b);
  }

  /** correct/total >= 0.7 exactly when 10·correct >= 7·total. */
  lemma QuotientThreshold(correct: nat, total: nat)
    requires total > 0
    ensures correct as real / total as real >= 0.7 <==> 10 * correct >= 7 * total
  {
    RealThreshold(correct as real, total as real);
  }

  lemma WholeQuotient(n: nat)
    requires n > 0
    ensures n as real / n as real == 1.0
  {
  }
}
