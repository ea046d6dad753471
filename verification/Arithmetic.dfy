/** Divisibility, as far as one counter over two lists needs it. */
module Arithmetic {
  predicate Divides(d: int, n: int)
    requires d > 0
  {
    n % d == 0
  }

  function Gcd(a: nat, b: nat): (g: nat)
    requires a > 0
    ensures g > 0
    decreases b
  {
    if b == 0 then a else Gcd(b, a % b)
  }

  lemma Spread(a: int, b: int, c: int)
    ensures (a + b) * c == a * c + b * c
  {
  }

  lemma AtLeast(e: int, d: int)
    requires e >= 1 && d > 0
    ensures e * d >= d
  {
    Spread(e - 1, 1, d);
  }

  lemma Assoc(a: int, b: int, c: int)
    ensures (a * b) * c == a * (b * c)
  {
  }

  lemma BezoutStep(a: int, b: int, q: int, r: int, x: int, y: int)
    requires a == q * b + r
    ensures y * a + (x - q * y) * b == x * b + y * r
  {
    Assoc(y, q, b);
    Spread(x, -(q * y), b);
    assert y * (q * b + r) == y * (q * b) + y * r;
    assert y * q == q * y;
  }

  lemma SmallMultiple(e: int, d: int)
    requires d > 0 && -d < e * d < d
    ensures e == 0
  {
    if e >= 1 {
      AtLeast(e, d);
    } else if e <= -1 {
      AtLeast(-e, d);
    }
  }

  lemma QuotientAndRemainder(n: int, d: int)
    requires d > 0
    ensures n == (n / d) * d + n % d && 0 <= n % d < d
  {
  }

  lemma ModIsUnique(n: int, q: int, r: int, d: int)
    requires d > 0 && n == q * d + r && 0 <= r < d
    ensures n % d == r && n / d == q
  {
    QuotientAndRemainder(n, d);
    Spread(q, -(n / d), d);
    SmallMultiple(q - n / d, d);
  }

  lemma MulMod(k: int, d: int)
    requires d > 0
    ensures k * d % d == 0
  {
    ModIsUnique(k * d, k, 0, d);
  }

  lemma DividesIsMultiple(d: int, n: int) returns (k: int)
    requires d > 0 && Divides(d, n)
    ensures n == k * d
  {
    k := n / d;
  }

  lemma MultipleDivides(d: int, n: int, k: int)
    requires d > 0 && n == k * d
    ensures Divides(d, n)
  {
    MulMod(k, d);
  }

  lemma DividesSum(g: int, b: int, r: int, q: int)
    requires g > 0 && Divides(g, b) && Divides(g, r)
    ensures Divides(g, q * b + r)
  {
    var k := DividesIsMultiple(g, b);
    var m := DividesIsMultiple(g, r);
    Assoc(q, k, g);
    Spread(q * k, m, g);
    MultipleDivides(g, q * b + r, q * k + m);
  }

  /** Bezout's identity, and that Gcd divides both. */
  lemma {:induction false} Bezout(a: nat, b: nat) returns (x: int, y: int)
    requires a > 0
    ensures var g := Gcd(a, b); g == x * a + y * b && Divides(g, a) && Divides(g, b)
    decreases b
  {
    if b == 0 {
      x, y := 1, 0;
      MulMod(1, a);
    } else {
      var x2, y2 := Bezout(b, a % b);
      QuotientAndRemainder(a, b);
      BezoutStep(a, b, a / b, a % b, x2, y2);
      DividesSum(Gcd(b, a % b), b, a % b, a / b);
      x, y := y2, x2 - (a / b) * y2;
    }
  }

  lemma PositiveFactor(p: int, g: int)
    requires g > 0 && p * g > 0
    ensures p > 0
  {
    if p < 0 {
      AtLeast(-p, g);
    }
  }

  lemma LcmIsPositive(a: nat, b: nat)
    requires a > 0 && b > 0
    ensures a / Gcd(a, b) * b > 0
  {
    var x, y := Bezout(a, b);
    PositiveFactor(a / Gcd(a, b), Gcd(a, b));
    AtLeast(a / Gcd(a, b), b);
  }

  /** The least common multiple; that it is one is what LcmDivides and LcmIsLeast say. */
  function Lcm(a: nat, b: nat): (l: nat)
    requires a > 0 && b > 0
    ensures l > 0
  {
    LcmIsPositive(a, b);
    a / Gcd(a, b) * b
  }

  /** Equal remainders mean a difference that divides. */
  lemma SameRemainder(m: int, n: int, d: int)
    requires d > 0
    ensures m % d == n % d <==> Divides(d, m - n)
  {
    var a, b := m / d, n / d;
    assert m - n == (a - b) * d + (m % d - n % d);
    if m % d == n % d {
      MultipleDivides(d, m - n, a - b);
    } else if m % d > n % d {
      ModIsUnique(m - n, a - b, m % d - n % d, d);
    } else {
      assert m - n == (a - b - 1) * d + (d + m % d - n % d) by {
        assert (a - b - 1) * d == (a - b) * d - d;
      }
      ModIsUnique(m - n, a - b - 1, d + m % d - n % d, d);
    }
  }

  lemma LcmOfParts(a: nat, b: nat, g: nat, p: nat, q: nat)
    requires a > 0 && b > 0 && g == Gcd(a, b) && p == a / g && a == p * g && b == q * g && p > 0
    ensures Lcm(a, b) == p * b == q * a
  {
    Assoc(p, q, g);
    Assoc(q, p, g);
  }

  lemma CancelFactor(g: int, m: int, n: int)
    requires g > 0 && m * g == n * g
    ensures m == n
  {
    Spread(m, -n, g);
    SmallMultiple(m - n, g);
  }

  /** Both numbers in units of their greatest common divisor. */
  lemma Parts(a: nat, b: nat) returns (g: nat, p: nat, q: nat, x: int, y: int)
    requires a > 0 && b > 0
    ensures g == Gcd(a, b) && a == p * g && b == q * g && p > 0 && q > 0 && g > 0
    ensures x * p + y * q == 1 && Lcm(a, b) == p * b == q * a
  {
    x, y := Bezout(a, b);
    g := Gcd(a, b);
    p, q := a / g, b / g;
    Assoc(x, p, g);
    Assoc(y, q, g);
    Spread(x * p, y * q, g);
    CancelFactor(g, x * p + y * q, 1);
    PositiveFactor(p, g);
    PositiveFactor(q, g);
    LcmOfParts(a, b, g, p, q);
  }

  lemma LcmDivides(a: nat, b: nat)
    requires a > 0 && b > 0
    ensures Divides(a, Lcm(a, b)) && Divides(b, Lcm(a, b))
  {
    var g, p, q, x, y := Parts(a, b);
    MultipleDivides(a, Lcm(a, b), q);
    MultipleDivides(b, Lcm(a, b), p);
  }

  lemma Combine(l: int, p: int, q: int, x: int, y: int, a: int, b: int, u: int, v: int, n: int)
    requires x * p + y * q == 1 && l == p * b && l == q * a && n == u * a && n == v * b
    ensures n == (v * x + u * y) * l
  {
    Spread(v * x, u * y, l);
    Assoc(v * x, p, b);
    Assoc(v, x, p);
    Assoc(v, x * p, b);
    assert (v * x) * l == (x * p) * n by {
      assert (v * x) * l == (v * (x * p)) * b == ((x * p) * v) * b;
      Assoc(x * p, v, b);
    }
    Assoc(u * y, q, a);
    Assoc(u, y, q);
    assert (u * y) * l == (y * q) * n by {
      assert (u * y) * l == (u * (y * q)) * a == ((y * q) * u) * a;
      Assoc(y * q, u, a);
    }
    Spread(x * p, y * q, n);
  }

  /** Whatever both divide, their least common multiple divides; and the other way round. */
  lemma LcmIsLeast(a: nat, b: nat, n: int)
    requires a > 0 && b > 0
    ensures Divides(Lcm(a, b), n) <==> Divides(a, n) && Divides(b, n)
  {
    var g, p, q, x, y := Parts(a, b);
    var l := Lcm(a, b);
    if Divides(a, n) && Divides(b, n) {
      var u := DividesIsMultiple(a, n);
      var v := DividesIsMultiple(b, n);
      Combine(l, p, q, x, y, a, b, u, v, n);
      MultipleDivides(l, n, v * x + u * y);
    }
    if Divides(l, n) {
      var k := DividesIsMultiple(l, n);
      Assoc(k, q, a);
      Assoc(k, p, b);
      MultipleDivides(a, n, k * q);
      MultipleDivides(b, n, k * p);
    }
  }

  lemma Swap(x: int, k: int, p: int, g: int)
    ensures (x * k) * (p * g) == (x * p) * (k * g) && x * k == k * x
  {
    Assoc(x, k, p * g);
    Assoc(k, p, g);
    Assoc(p, k, g);
    Assoc(x, p, k * g);
    assert k * p == p * k;
  }

  lemma SolutionOffset(g: int, p: int, q: int, x: int, y: int, k: int)
    requires x * p + y * q == 1
    ensures (x * k) * (p * g) == k * g - (k * y) * (q * g)
  {
    assert (x * k) * (p * g) == (x * p) * (k * g) by { Swap(x, k, p, g); }
    assert (k * y) * (q * g) == (y * q) * (k * g) by { Swap(y, k, q, g); }
    Spread(x * p, y * q, k * g);
  }

  /** Two remainders that agree modulo the greatest common divisor have a common solution. */
  lemma CommonSolution(a: nat, b: nat, t: nat, s: nat) returns (n: int)
    requires a > 0 && b > 0 && t < a && s < b && t % Gcd(a, b) == s % Gcd(a, b)
    ensures n % a == t && n % b == s
  {
    var g, p, q, x, y := Parts(a, b);
    SameRemainder(s, t, g);
    var k := DividesIsMultiple(g, s - t);
    n := (x * k) * a + t;
    ModIsUnique(n, x * k, t, a);
    SolutionOffset(g, p, q, x, y, k);
    assert n == -((k * y) * b) + s;
    Assoc(-1, k * y, b);
    ModIsUnique(n, -(k * y), s, b);
  }

  /** And only such remainders have one. */
  lemma SolutionsAgree(a: nat, b: nat, n: int)
    requires a > 0 && b > 0
    ensures (n % a) % Gcd(a, b) == (n % b) % Gcd(a, b)
  {
    var g, p, q, x, y := Parts(a, b);
    var u, v := n / a, n / b;
    QuotientAndRemainder(n, a);
    QuotientAndRemainder(n, b);
    Assoc(v, q, g);
    Assoc(u, p, g);
    Spread(v * q, -(u * p), g);
    MultipleDivides(g, n % a - n % b, v * q - u * p);
    SameRemainder(n % a, n % b, g);
  }
}
