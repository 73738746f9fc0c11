/** `PositiveRatio`: accepted fractions are in lowest terms, so each rational has one. */
module Ratio {
  import opened Options

  // Products

  lemma Assoc(x: int, y: int, z: int)
    ensures (x * y) * z == x * (y * z)
  {
  }

  lemma Distribute(x: int, y: int, z: int)
    ensures x * (y + z) == x * y + x * z
  {
  }

  lemma AtLeast(x: int, y: int)
    requires x >= 1 && y >= 1
    ensures x * y >= x && x * y >= y
  {
    Distribute(x, y - 1, 1);
    Distribute(y, x - 1, 1);
    assert x * (y - 1) >= 0 && y * (x - 1) >= 0;
  }

  // Divisibility

  ghost predicate Divides(d: nat, n: nat) {
    exists k: nat :: n == d * k
  }

  /** The greatest common divisor, and a multiple of every common divisor. */
  ghost predicate IsGcd(g: nat, a: nat, b: nat) {
    Divides(g, a) && Divides(g, b) && forall d :: Divides(d, a) && Divides(d, b) ==> Divides(d, g)
  }

  lemma DividesSum(d: nat, a: nat, b: nat, q: nat)
    requires Divides(d, a) && Divides(d, b)
    ensures Divides(d, a + b * q)
  {
    var i: nat :| a == d * i;
    var j: nat :| b == d * j;
    Assoc(d, j, q);
    Distribute(d, i, j * q);
    assert a + b * q == d * (i + j * q);
  }

  lemma DividesRest(d: nat, a: nat, b: nat, q: nat, r: nat)
    requires Divides(d, a) && Divides(d, b) && a == b * q + r
    ensures Divides(d, r)
  {
    var i: nat :| a == d * i;
    var j: nat :| b == d * j;
    Assoc(d, j, q);
    Distribute(d, i - j * q, j * q);
    assert r == d * (i - j * q);
    if i < j * q {
      if d > 0 {
        AtLeast(d, j * q - i);
        Distribute(d, j * q - i, i - j * q);
      }
      assert r == d * 0;
    } else {
      var k: nat := i - j * q;
      assert r == d * k;
    }
  }

  /** One turn of Euclid's loop keeps the common divisors. */
  lemma TurnKeeps(g: nat, a: nat, b: nat)
    requires b != 0 && IsGcd(g, b, a % b)
    ensures IsGcd(g, a, b)
  {
    var q, r := a / b, a % b;
    assert a == b * q + r;
    DividesSum(g, r, b, q);
    forall d | Divides(d, a) && Divides(d, b) ensures Divides(d, g) {
      DividesRest(d, a, b, q, r);
    }
  }

  /** The loop's answer, by its own recursion. */
  function Euclid(a: nat, b: nat): nat
    decreases b
  {
    if b == 0 then a else Euclid(b, a % b)
  }

  lemma {:induction false} EuclidIsGcd(a: nat, b: nat)
    ensures IsGcd(Euclid(a, b), a, b)
    decreases b
  {
    if b == 0 {
      assert a == a * 1 && 0 == a * 0;
    } else {
      EuclidIsGcd(b, a % b);
      TurnKeeps(Euclid(b, a % b), a, b);
    }
  }

  /** `gcd`. */
  method Gcd(a: nat, b: nat) returns (left: nat)
    ensures IsGcd(left, a, b)
    ensures left == Euclid(a, b)
  {
    left := a;
    var right: nat := b;
    while right != 0
      invariant Euclid(left, right) == Euclid(a, b)
      decreases right
    {
      left, right := right, left % right;
    }
    EuclidIsGcd(a, b);
  }

  datatype Positive = Positive(numerator: nat, denominator: nat)

  /** `PositiveRatio::new`. */
  function New(numerator: nat, denominator: nat): Option<Positive> {
    if numerator == 0 || denominator == 0 || Euclid(numerator, denominator) != 1 then None
    else Some(Positive(numerator, denominator))
  }

  lemma BezoutStep(b: int, q: int, r: int, u: int, v: int)
    ensures (b * q + r) * v + b * (u - q * v) == b * u + r * v
  {
    Distribute(v, b * q, r);
    Assoc(b, q, v);
    Distribute(b, u - q * v, q * v);
  }

  lemma {:induction false} Bezout(a: nat, b: nat) returns (x: int, y: int)
    ensures a * x + b * y == Euclid(a, b)
    decreases b
  {
    if b == 0 {
      x, y := 1, 0;
    } else {
      var u, v := Bezout(b, a % b);
      var q, r := a / b, a % b;
      x, y := v, u - q * v;
      assert a == b * q + r;
      BezoutStep(b, q, r, u, v);
    }
  }

  /** A number prime to `b` that divides `b * n` divides `n`. */
  lemma Coprime(a: nat, b: nat, n: nat, k: nat)
    requires Euclid(a, b) == 1 && b * n == a * k
    ensures exists m: int :: n == a * m
  {
    var x, y := Bezout(a, b);
    CoprimeSum(a, b, n, k, x, y);
    var m := n * x + k * y;
    assert n == a * m;
  }

  lemma CoprimeSum(a: int, b: int, n: int, k: int, x: int, y: int)
    requires a * x + b * y == 1 && b * n == a * k
    ensures n == a * (n * x + k * y)
  {
    Distribute(n, a * x, b * y);
    Assoc(n, a, x);
    Assoc(a, n, x);
    Assoc(n, b, y);
    Assoc(a, k, y);
    Distribute(a, n * x, k * y);
  }

  lemma NotPositive(a: int, m: int)
    requires a > 0 && m <= 0
    ensures a * m <= 0
  {
  }

  lemma Sign(a: int, m: int)
    requires a > 0 && a * m > 0
    ensures m >= 1
  {
    if m <= 0 {
      NotPositive(a, m);
    }
  }

  lemma Antisymmetric(a: nat, b: nat, m: int, k: int)
    requires a > 0 && b > 0 && b == a * m && a == b * k
    ensures a == b
  {
    Sign(a, m);
    Sign(b, k);
    AtLeast(a, m);
    AtLeast(b, k);
  }

  /** Two accepted ratios denote one rational exactly when they are the same pair. */
  lemma RatiosAreUnique(p: Positive, q: Positive)
    requires New(p.numerator, p.denominator) == Some(p) && New(q.numerator, q.denominator) == Some(q)
    ensures p.numerator * q.denominator == q.numerator * p.denominator <==> p == q
  {
    var a, b, c, d := p.numerator, p.denominator, q.numerator, q.denominator;
    if a * d == c * b {
      assert b * c == a * d && d * a == c * b;
      Coprime(a, b, c, d);
      Coprime(c, d, a, b);
      var m: int :| c == a * m;
      var k: int :| a == c * k;
      Antisymmetric(a, c, m, k);
      assert a * d == a * b;
      SameFactor(a, b, d);
    }
  }

  lemma SameFactor(a: nat, b: nat, d: nat)
    requires a > 0 && a * d == a * b
    ensures b == d
  {
    if b < d {
      Distribute(a, d - b, b);
      AtLeast(a, d - b);
    } else if d < b {
      Distribute(a, b - d, d);
      AtLeast(a, b - d);
    }
  }

  lemma UnitFactor(g: nat, h: nat, k: nat)
    requires g > 0 && g == (g * h) * k
    ensures h == 1
  {
    Assoc(g, h, k);
    SameFactor(g, 1, h * k);
    Sign(1, h * k);
    if h >= 2 && k >= 1 {
      AtLeast(h, k);
    }
  }

  /** What is left after dividing out the greatest common divisor has no common divisor. */
  lemma QuotientsArePrime(a: nat, b: nat, g: nat, i: nat, j: nat)
    requires a > 0 && b > 0 && IsGcd(g, a, b) && a == g * i && b == g * j
    ensures Euclid(i, j) == 1
  {
    var h := Euclid(i, j);
    EuclidIsGcd(i, j);
    var s: nat :| i == h * s;
    var t: nat :| j == h * t;
    Assoc(g, h, s);
    Assoc(g, h, t);
    assert Divides(g * h, a) && Divides(g * h, b);
    var k: nat :| g == (g * h) * k;
    UnitFactor(g, h, k);
  }

  /** Every fraction has an accepted form: dividing out the greatest common divisor. */
  lemma Reducible(numerator: nat, denominator: nat)
    requires numerator > 0 && denominator > 0
    ensures exists p: Positive :: New(p.numerator, p.denominator) == Some(p) && p.numerator * denominator == numerator * p.denominator
  {
    var g := Euclid(numerator, denominator);
    EuclidIsGcd(numerator, denominator);
    var i: nat :| numerator == g * i;
    var j: nat :| denominator == g * j;
    QuotientsArePrime(numerator, denominator, g, i, j);
    Assoc(i, g, j);
    assert New(i, j) == Some(Positive(i, j));
    assert i * denominator == numerator * j;
  }
}
