/** Facts about multiplying reals by a positive factor, kept apart from the
    terrain definitions so that each is proved in a small context. */
module Scaling {

  function Abs(a: real): real
  {
    if a < 0.0 then -a else a
  }

  lemma ScaleStrict(a: real, b: real, k: real)
    requires a < b && k > 0.0
    ensures a * k < b * k
  {
  }

  lemma ScaleCancel(a: real, b: real, k: real)
    requires k > 0.0 && a * k < b * k
    ensures a < b
  {
  }

  /** Scaling by d a gap already scaled by 0.95 is scaling it by 0.95 * d. */
  lemma ScaleTwice(d: real, a: real, b: real)
    requires a == 0.95 * b
    ensures d * a == (0.95 * d) * b
  {
  }

  lemma Quotient(a: real, g: real)
    requires a > 0.0 && g > 0.0
    ensures a / g > 0.0 && a / g * g == a
  {
  }

  lemma AbsScale(d: real, a: real)
    requires d > 0.0
    ensures Abs(d * a) == d * Abs(a)
  {
    if a < 0.0 {
      assert d * a < 0.0;
    } else {
      assert d * a >= 0.0;
    }
  }

  /** A factor d with d * (1 + n / 20) <= 1, where n > 20 / eps, is below eps. */
  lemma BelowReciprocal(eps: real, n: real, d: real)
    requires eps > 0.0 && n > 20.0 / eps && d * (1.0 + n / 20.0) <= 1.0
    ensures d < eps
  {
    var k := 1.0 + n / 20.0;
    Quotient(20.0, eps);
    ScaleStrict(20.0 / eps, n, eps);
    assert k * eps == eps + (n * eps) / 20.0;
    assert d * k < eps * k;
    ScaleCancel(d, eps, k);
  }

  /** A gap scaled by a factor below eps / |gap| is below eps. */
  lemma BelowAfterScaling(diff: real, d: real, gap: real, eps: real)
    requires gap != 0.0 && eps > 0.0 && d > 0.0 && d < eps / Abs(gap) && diff == d * gap
    ensures Abs(diff) < eps
  {
    Quotient(eps, Abs(gap));
    AbsScale(d, gap);
    ScaleStrict(d, eps / Abs(gap), Abs(gap));
  }
}
