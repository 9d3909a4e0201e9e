/**
 The Wilson score interval of a pass rate, over the reals.  The square root is whatever number has the
 right square; z is the quantile.
*/
module Wilson {

  /** c is z*z/n. */
  function Center(phat: real, c: real): real
    requires c >= 0.0
  {
    (phat + c / 2.0) / (1.0 + c)
  }

  /** The radicand of the margin, with the factor z*z taken in. */
  function Radicand(phat: real, c: real): real {
    c * phat * (1.0 - phat) + c * c / 4.0
  }

  function Clamp01(x: real): real {
    if x < 0.0 then 0.0 else if x > 1.0 then 1.0 else x
  }

  /** The equation both ends solve: the distance to phat is z standard errors at x itself. */
  predicate Solves(phat: real, c: real, x: real) {
    (phat - x) * (phat - x) == c * x * (1.0 - x)
  }

  /** The difference of the two sides; below zero strictly inside the interval. */
  function Gap(phat: real, c: real, x: real): real {
    (phat - x) * (phat - x) - c * x * (1.0 - x)
  }

  /** With root the square root of the radicand, lo and hi before any clamping. */
  predicate IsRoot(phat: real, c: real, root: real) {
    root >= 0.0 && root * root == Radicand(phat, c)
  }

  function Lo(phat: real, c: real, root: real): real
    requires c >= 0.0
  {
    Center(phat, c) - root / (1.0 + c)
  }

  function Hi(phat: real, c: real, root: real): real
    requires c >= 0.0
  {
    Center(phat, c) + root / (1.0 + c)
  }

  /** The gap is a parabola with its zeros at the two ends. */
  lemma GapFactors(phat: real, c: real, root: real, x: real)
    requires c >= 0.0 && IsRoot(phat, c, root)
    ensures Gap(phat, c, x) == (1.0 + c) * (x - Lo(phat, c, root)) * (x - Hi(phat, c, root))
  {
    var d := 1.0 + c;
    var b := phat + c / 2.0;
    var lo, hi := Lo(phat, c, root), Hi(phat, c, root);
    Scaled(b, root, d, lo, hi);
    // (d x - b)^2 - root^2 == d * Gap
    assert (d * x - b) * (d * x - b) - root * root == d * Gap(phat, c, x) by {
      ExpandGap(phat, c, x, root);
    }
    assert (d * x - b - root) * (d * x - b + root) == (d * x - b) * (d * x - b) - root * root;
    assert d * x - b - root == d * (x - hi) && d * x - b + root == d * (x - lo);
    CancelFactor(d, Gap(phat, c, x), x - lo, x - hi);
  }

  lemma Scaled(b: real, root: real, d: real, lo: real, hi: real)
    requires d > 0.0 && lo == b / d - root / d && hi == b / d + root / d
    ensures d * lo == b - root && d * hi == b + root
  {
    assert d * (b / d) == b && d * (root / d) == root;
  }

  lemma ExpandGap(phat: real, c: real, x: real, root: real)
    requires root * root == Radicand(phat, c)
    ensures var d, b := 1.0 + c, phat + c / 2.0;
            (d * x - b) * (d * x - b) - root * root == d * Gap(phat, c, x)
  {
    var d, b := 1.0 + c, phat + c / 2.0;
    assert b * b == phat * phat + c * phat + c * c / 4.0;
    assert root * root == c * phat - c * phat * phat + c * c / 4.0;
    assert b * b - root * root == d * phat * phat;
    assert Gap(phat, c, x) == d * x * x - 2.0 * b * x + phat * phat;
  }

  lemma CancelFactor(d: real, g: real, u: real, v: real)
    requires d > 0.0 && d * g == (d * v) * (d * u)
    ensures g == d * u * v
  {
    assert d * (g - d * u * v) == 0.0;
  }

  /** Both ends solve the equation. */
  lemma EndsSolve(phat: real, c: real, root: real)
    requires c >= 0.0 && IsRoot(phat, c, root)
    ensures Solves(phat, c, Lo(phat, c, root)) && Solves(phat, c, Hi(phat, c, root))
  {
    GapFactors(phat, c, root, Lo(phat, c, root));
    GapFactors(phat, c, root, Hi(phat, c, root));
  }

  /** Where the gap is not positive, the point lies between the ends; elsewhere it does not. */
  lemma BetweenIff(phat: real, c: real, root: real, x: real)
    requires c >= 0.0 && IsRoot(phat, c, root)
    ensures Lo(phat, c, root) <= x <= Hi(phat, c, root) <==> Gap(phat, c, x) <= 0.0
  {
    GapFactors(phat, c, root, x);
    var u, v := x - Lo(phat, c, root), x - Hi(phat, c, root);
    assert u >= v by { RootShrinks(root, c); }
    SignOfProduct(1.0 + c, u, v);
  }

  lemma RootShrinks(root: real, c: real)
    requires root >= 0.0 && c >= 0.0
    ensures root / (1.0 + c) >= 0.0
  {
  }

  lemma SignOfProduct(d: real, u: real, v: real)
    requires d > 0.0 && u >= v
    ensures d * u * v <= 0.0 <==> u >= 0.0 && v <= 0.0
  {
    if u >= 0.0 && v <= 0.0 {
      assert u * v <= 0.0;
      assert d * u * v == d * (u * v);
    } else if u < 0.0 {
      assert u * v > 0.0;
      assert d * u * v == d * (u * v) > 0.0;
    } else {
      assert u > 0.0 && v > 0.0 && u * v > 0.0;
      assert d * u * v == d * (u * v) > 0.0;
    }
  }

  lemma Product(a: real, b: real)
    requires a >= 0.0 && b >= 0.0
    ensures a * b >= 0.0
  {
  }

  lemma Positive(a: real, b: real)
    requires a > 0.0 && b > 0.0
    ensures a * b > 0.0
  {
  }

  lemma SquareOrder(a: real, b: real)
    requires a >= 0.0 && b >= 0.0 && a * a >= b * b
    ensures a >= b
  {
    if a < b {
      SquareLess(a, b);
      assert false;
    }
  }

  lemma SquareLess(a: real, b: real)
    requires 0.0 <= a < b
    ensures a * a < b * b
  {
    Product(a, b - a);
    Positive(b, b - a);
    assert a * b - a * a == a * (b - a) >= 0.0;
    assert b * b - a * b == b * (b - a) > 0.0;
  }

  lemma OverSum(a: real, b: real, d: real)
    requires d > 0.0
    ensures a / d + b / d == (a + b) / d && a / d - b / d == (a - b) / d
  {
    var u := 1.0 / d;
    assert a / d == a * u && b / d == b * u && (a + b) / d == (a + b) * u && (a - b) / d == (a - b) * u;
  }

  lemma Quotients(b: real, root: real, d: real)
    requires d > 0.0 && root <= b && b + root <= d
    ensures b / d - root / d >= 0.0 && b / d + root / d <= 1.0
  {
    OverSum(b, root, d);
    Ratio(b - root, d);
    Ratio(b + root, d);
  }

  lemma Ratio(a: real, d: real)
    requires d > 0.0
    ensures a >= 0.0 ==> a / d >= 0.0
    ensures a <= d ==> a / d <= 1.0
  {
  }

  /** The rate lies between the ends. */
  lemma RateInside(phat: real, c: real, root: real)
    requires c >= 0.0 && IsRoot(phat, c, root) && 0.0 <= phat <= 1.0
    ensures Lo(phat, c, root) <= phat <= Hi(phat, c, root)
  {
    Product(phat, 1.0 - phat);
    Product(c, phat * (1.0 - phat));
    assert Gap(phat, c, phat) == -(c * (phat * (1.0 - phat)));
    BetweenIff(phat, c, root, phat);
  }

  /** Seen from either end of [0, 1], the root is no longer than the center. */
  lemma RootFits(phat: real, c: real, root: real)
    requires c >= 0.0 && IsRoot(phat, c, root) && 0.0 <= phat <= 1.0
    ensures root <= phat + c / 2.0 && phat + c / 2.0 + root <= 1.0 + c
  {
    var d, b := 1.0 + c, phat + c / 2.0;
    ExpandGap(phat, c, 0.0, root);
    ExpandGap(phat, c, 1.0, root);
    AtTheEnds(phat, c);
    Product(phat, phat);
    Product(d, phat * phat);
    Product(1.0 - phat, 1.0 - phat);
    Product(d, (1.0 - phat) * (1.0 - phat));
    assert (d * 0.0 - b) * (d * 0.0 - b) == b * b;
    assert (d * 1.0 - b) * (d * 1.0 - b) == (d - b) * (d - b);
    SquareOrder(b, root);
    SquareOrder(d - b, root);
  }

  lemma AtTheEnds(phat: real, c: real)
    ensures Gap(phat, c, 0.0) == phat * phat && Gap(phat, c, 1.0) == (1.0 - phat) * (1.0 - phat)
  {
  }

  /** The interval holds the rate and stays within [0, 1] by itself. */
  lemma WithinUnit(phat: real, c: real, root: real)
    requires c >= 0.0 && IsRoot(phat, c, root) && 0.0 <= phat <= 1.0
    ensures 0.0 <= Lo(phat, c, root) <= phat <= Hi(phat, c, root) <= 1.0
  {
    RateInside(phat, c, root);
    RootFits(phat, c, root);
    hide IsRoot;
    Quotients(phat + c / 2.0, root, 1.0 + c);
  }

  /** A rate closer to x than p1 is to it leaves no bigger gap. */
  lemma Closer(p1: real, p2: real, c: real, x: real)
    requires Solves(p1, c, x) && (x <= p2 <= p1 || p1 <= p2 <= x)
    ensures Gap(p2, c, x) <= 0.0
  {
    if x <= p2 <= p1 {
      Product((p1 - x) - (p2 - x), (p1 - x) + (p2 - x));
    } else {
      Product((x - p1) - (x - p2), (x - p1) + (x - p2));
    }
    assert ((p1 - x) - (p2 - x)) * ((p1 - x) + (p2 - x)) == (p1 - x) * (p1 - x) - (p2 - x) * (p2 - x);
    assert ((x - p1) - (x - p2)) * ((x - p1) + (x - p2)) == (p1 - x) * (p1 - x) - (p2 - x) * (p2 - x);
  }

  /** A higher rate moves both ends up, or leaves them. */
  lemma Monotone(p1: real, p2: real, c: real, r1: real, r2: real)
    requires c >= 0.0 && 0.0 <= p1 <= p2 <= 1.0 && IsRoot(p1, c, r1) && IsRoot(p2, c, r2)
    ensures Lo(p1, c, r1) <= Lo(p2, c, r2) && Hi(p1, c, r1) <= Hi(p2, c, r2)
  {
    hide *;
    WithinUnit(p1, c, r1);
    WithinUnit(p2, c, r2);
    EndsSolve(p1, c, r1);
    EndsSolve(p2, c, r2);
    var lo2, hi1 := Lo(p2, c, r2), Hi(p1, c, r1);
    if lo2 < Lo(p1, c, r1) {
      Closer(p2, p1, c, lo2);
      BetweenIff(p1, c, r1, lo2);
      assert false;
    }
    if hi1 > Hi(p2, c, r2) {
      Closer(p1, p2, c, hi1);
      BetweenIff(p2, c, r2, hi1);
      assert false;
    }
  }

  // ---- the computation ------------------------------------------------------------------------------------

  const Z := 1.96

  ghost predicate IsSqrt(sqrt: real -> real) {
    forall x :: x >= 0.0 ==> sqrt(x) >= 0.0 && sqrt(x) * sqrt(x) == x
  }

  /** z squared over n. */
  function Weight(n: nat): real
    requires n > 0
  {
    Z * Z / (n as real)
  }

  /** The interval of a rate, as it is computed: the ends are those of the equation, and clamping never changes them. */
  method Wilson(passes: nat, n: nat, sqrt: real -> real) returns (lo: real, hi: real, ghost root: real)
    requires passes <= n && IsSqrt(sqrt)
    ensures n == 0 ==> lo == 0.0 && hi == 0.0
    ensures n > 0 ==>
              var phat, c := passes as real / n as real, Weight(n);
              && IsRoot(phat, c, root) && lo == Lo(phat, c, root) && hi == Hi(phat, c, root)
              && Solves(phat, c, lo) && Solves(phat, c, hi)
              && 0.0 <= lo <= phat <= hi <= 1.0
  {
    if n == 0 {
      return 0.0, 0.0, 0.0;
    }
    var nf := n as real;
    var phat := passes as real / nf;
    var denom := 1.0 + Z * Z / nf;
    var center := (phat + Z * Z / (2.0 * nf)) / denom;
    var s := sqrt(phat * (1.0 - phat) / nf + Z * Z / (4.0 * nf * nf));
    var margin := (Z * s) / denom;
    lo, hi := Clamp01(center - margin), Clamp01(center + margin);
    root := Z * s;
    Rate(passes, n);
    TheRoot(phat, nf, s);
    EndsSolve(phat, Weight(n), root);
    WithinUnit(phat, Weight(n), root);
    Half(nf);
  }

  /** One more pass never moves an end down. */
  lemma MorePasses(k1: nat, k2: nat, n: nat, r1: real, r2: real)
    requires k1 <= k2 <= n && n > 0
    requires IsRoot(k1 as real / n as real, Weight(n), r1) && IsRoot(k2 as real / n as real, Weight(n), r2)
    ensures var p1, p2, c := k1 as real / n as real, k2 as real / n as real, Weight(n);
            Lo(p1, c, r1) <= Lo(p2, c, r2) && Hi(p1, c, r1) <= Hi(p2, c, r2)
  {
    hide *;
    Rate(k1, n);
    Rate(k2, n);
    RateOrder(k1, k2, n);
    Monotone(k1 as real / n as real, k2 as real / n as real, Weight(n), r1, r2);
  }

  lemma RateOrder(k1: nat, k2: nat, n: nat)
    requires k1 <= k2 && n > 0
    ensures k1 as real / n as real <= k2 as real / n as real && Weight(n) >= 0.0
  {
    OverSum(k2 as real, k1 as real, n as real);
    Ratio(k2 as real - k1 as real, n as real);
    Ratio(Z * Z, n as real);
  }

  lemma Rate(passes: nat, n: nat)
    requires passes <= n && n > 0
    ensures 0.0 <= passes as real / n as real <= 1.0
  {
  }

  lemma Half(nf: real)
    requires nf > 0.0
    ensures Z * Z / (2.0 * nf) == (Z * Z / nf) / 2.0
  {
  }

  /** The number whose square root is taken is not negative, and z times that root is the root of the radicand. */
  lemma TheRoot(phat: real, nf: real, s: real)
    requires nf > 0.0 && 0.0 <= phat <= 1.0
    ensures phat * (1.0 - phat) / nf + Z * Z / (4.0 * nf * nf) >= 0.0
    ensures s >= 0.0 && s * s == phat * (1.0 - phat) / nf + Z * Z / (4.0 * nf * nf) ==> IsRoot(phat, Z * Z / nf, Z * s)
  {
    var u, c := 1.0 / nf, Z * Z / nf;
    assert c == Z * Z * u;
    Fraction(phat * (1.0 - phat), nf);
    Positive(4.0 * nf, nf);
    Fraction(Z * Z, 4.0 * nf * nf);
    Product(phat, 1.0 - phat);
    Parts(phat, u, nf);
    if s >= 0.0 && s * s == phat * (1.0 - phat) / nf + Z * Z / (4.0 * nf * nf) {
      assert (Z * s) * (Z * s) == Z * Z * (s * s);
    }
  }

  lemma Fraction(a: real, d: real)
    requires d > 0.0
    ensures a >= 0.0 ==> a / d >= 0.0
  {
  }

  lemma Parts(phat: real, u: real, nf: real)
    requires nf > 0.0 && u == 1.0 / nf
    ensures Z * Z * (phat * (1.0 - phat) / nf + Z * Z / (4.0 * nf * nf)) == Radicand(phat, Z * Z / nf)
  {
    var c, q := Z * Z / nf, phat * (1.0 - phat);
    assert q / nf == q * u;
    assert c == Z * Z * u;
    assert u * nf == 1.0;
    assert (u * u) * (nf * nf) == (u * nf) * (u * nf);
    assert Z * Z / (4.0 * nf * nf) == Z * Z * (u * u) / 4.0;
  }
}
