/** Which CPU limits survive being printed into a spec and parsed back. */
module CPULimits {
  import opened Go
  import opened Floats

  // ---- Powers of two ----

  lemma Scale(a: real, b: real, c: real)
    requires a <= b && c > 0.0
    ensures a * c <= b * c
  {
  }

  lemma Pow2Next(e: int)
    ensures Pow2(e + 1) == 2.0 * Pow2(e)
  {
  }

  lemma FiveUp(e: int)
    ensures Pow2(e + 5) == 32.0 * Pow2(e)
  {
    Pow2Next(e); Pow2Next(e + 1); Pow2Next(e + 2); Pow2Next(e + 3); Pow2Next(e + 4);
  }

  lemma Pow2Values()
    ensures Pow2(0) == 1.0
    ensures Pow2(22) == 4194304.0
    ensures Pow2(23) == 8388608.0
    ensures Pow2(30) == 1073741824.0
    ensures Pow2(52) == 4503599627370496.0
    ensures Pow2(53) == 9007199254740992.0
  {
    FiveUp(0); FiveUp(5); FiveUp(10); FiveUp(15);
    Pow2Next(20); Pow2Next(21); Pow2Next(22);
    FiveUp(20); FiveUp(25); FiveUp(30); FiveUp(35); FiveUp(40); FiveUp(45);
    Pow2Next(50); Pow2Next(51); Pow2Next(52);
  }

  // ---- Grids ----

  lemma MultipleFiner(x: real, u: int)
    requires Multiple(x, u + 1)
    ensures Multiple(x, u)
  {
    var k :| x == Units(k, u + 1);
    Pow2Next(u);
    assert x == Units(2 * k, u);
  }

  lemma {:induction false} WholeIsMultiple(n: int, u: int)
    requires u <= 0
    ensures Multiple(n as real, u)
    decreases -u
  {
    if u == 0 {
      assert n as real == Units(n, 0);
    } else {
      WholeIsMultiple(n, u + 1);
      MultipleFiner(n as real, u);
    }
  }

  lemma Apart(k: int, m: int, step: real, x: real, y: real)
    requires step > 0.0 && x == k as real * step && y == m as real * step && -step < x - y < step
    ensures k == m
  {
    var d := (k - m) as real;
    assert d * step == k as real * step - m as real * step;
    if k > m {
      Scale(1.0, d, step);
    } else if k < m {
      Scale(d, -1.0, step);
    }
  }

  /** Two points of a grid closer than its step are the same. */
  lemma SamePoint(x: real, y: real, u: int)
    requires Multiple(x, u) && Multiple(y, u) && -Pow2(u) < x - y < Pow2(u)
    ensures x == y
  {
    var k :| x == Units(k, u);
    var m :| y == Units(m, u);
    Apart(k, m, Pow2(u), x, y);
  }

  /** A point of a grid strictly above another one is a whole step above it. */
  lemma NextPoint(x: real, y: real, u: int)
    requires Multiple(x, u) && Multiple(y, u) && x > y
    ensures x >= y + Pow2(u)
  {
    if x < y + Pow2(u) {
      SamePoint(x, y, u);
    }
  }

  lemma Pow2IsMultiple(e: int, u: int)
    requires u <= e
    ensures Multiple(Pow2(e), u)
    decreases e - u
  {
    if u == e {
      assert Pow2(e) == Units(1, e);
    } else {
      Pow2IsMultiple(e, u + 1);
      MultipleFiner(Pow2(e), u);
    }
  }

  // ---- Rounding ----

  lemma RoundsToItself(f: Floats, e: int, x: real)
    requires IEEE(f) && Binade(e, x) && Multiple(x, e - 52)
    ensures f.round(x) == x
  {
    SamePoint(f.round(x), x, e - 52);
  }

  /** The nearest point of the grid is the only one within half a step. */
  lemma RoundsTo(f: Floats, e: int, x: real, y: real)
    requires IEEE(f) && Binade(e, x) && Multiple(y, e - 52) && -Pow2(e - 52) < 2.0 * (x - y) < Pow2(e - 52)
    ensures f.round(x) == y
  {
    SamePoint(f.round(x), y, e - 52);
  }

  /** A double is at least the power of two that begins its binade and at most the next one. */
  lemma RoundedRange(f: Floats, e: int, x: real)
    requires IEEE(f) && Binade(e, x)
    ensures Pow2(e) <= f.round(x) <= Pow2(e + 1)
  {
    var y := f.round(x);
    Pow2Next(e);
    Pow2IsMultiple(e, e - 52);
    Pow2IsMultiple(e + 1, e - 52);
    if y < Pow2(e) {
      NextPoint(Pow2(e), y, e - 52);
    }
    if y > Pow2(e + 1) {
      NextPoint(y, Pow2(e + 1), e - 52);
    }
  }

  /** Rounding a second time changes nothing. */
  lemma RoundTwice(f: Floats, e: int, x: real)
    requires IEEE(f) && Binade(e, x)
    ensures f.round(f.round(x)) == f.round(x)
  {
    var y := f.round(x);
    RoundedRange(f, e, x);
    Pow2Next(e);
    if y == Pow2(e + 1) {
      Pow2IsMultiple(e + 1, e - 51);
      RoundsToItself(f, e + 1, y);
    } else {
      RoundsToItself(f, e, y);
    }
  }

  lemma {:induction false} FindBinade(x: real, lo: int, hi: int) returns (e: int)
    requires lo < hi && Pow2(lo) <= x < Pow2(hi)
    ensures lo <= e < hi && Binade(e, x)
    decreases hi - lo
  {
    Pow2Next(lo);
    if x < Pow2(lo + 1) {
      e := lo;
    } else {
      e := FindBinade(x, lo + 1, hi);
    }
  }

  const TWO_53 := 0x20_0000_0000_0000

  /** Integers of 53 bits are doubles. */
  lemma WholeIsExact(f: Floats, n: int)
    requires IEEE(f) && 1 <= n < TWO_53
    ensures f.round(n as real) == n as real
  {
    Pow2Values();
    var e := FindBinade(n as real, 0, 53);
    WholeIsMultiple(n, e - 52);
    RoundsToItself(f, e, n as real);
  }

  // ---- The number of cores as a double ----

  const TWO_23 := 0x80_0000
  const TWO_28 := 0x1000_0000
  const TWO_29 := 0x2000_0000
  const TWO_30 := 0x4000_0000
  const TWO_52 := 0x10_0000_0000_0000
  const TWO_82 := 0x4_0000_0000_0000_0000_0000

  /** n doubled until its quotient by 10^9 has 53 bits before the point: the significand of the
      number of cores. */
  function Scaled(n: int): (big: int)
    requires n > 0
    decreases NANO * TWO_52 - n
  {
    if n >= NANO * TWO_52 then n else Scaled(2 * n)
  }

  /** The significand rounded to an integer. */
  function Nearest(big: int): int {
    if 2 * (big % NANO) < NANO then big / NANO else big / NANO + 1
  }

  /** How far the nearest multiple of 10^9 lies above. */
  function Drift(big: int): int {
    Nearest(big) * NANO - big
  }

  /** A number with this significand is a double. */
  predicate HasDigits(big: int) {
    if big >= TWO_82 then big % TWO_30 == 0 else big % TWO_29 == 0
  }

  /** The limits that are read back as they were. They have to be doubles themselves. In the upper
      part of a binade of cores the grid of the product is 2^30 times that of the quotient, and this
      is enough. In the lower part it is 2^29 times that: the drift of the quotient has to be less
      than half a step of the product, or half a step while n has the even significand, or it is
      upwards and cut off again, since a step is at most a half. */
  predicate Survives(n: int64)
    requires n > 0
  {
    var big := Scaled(n);
    var drift := Drift(big);
    && HasDigits(big)
    && (|| big >= TWO_82
        || -TWO_28 < drift < TWO_28
        || ((drift == TWO_28 || drift == -TWO_28) && big % TWO_30 == 0)
        || (drift > 0 && n < NANO * TWO_23))
  }

  lemma {:induction false} ScaledUnits(n: int, v: int) returns (u: int)
    requires 0 < n < 2 * NANO * TWO_52
    ensures u <= v && Units(Scaled(n), u) == Units(n, v)
    ensures NANO * TWO_52 <= Scaled(n) < 2 * NANO * TWO_52
    decreases NANO * TWO_52 - n
  {
    if n >= NANO * TWO_52 {
      u := v;
    } else {
      Pow2Next(v - 1);
      assert Units(2 * n, v - 1) == Units(n, v);
      u := ScaledUnits(2 * n, v - 1);
    }
  }

  // ---- Steps above the units ----

  lemma UpperPowers(u: int)
    ensures Pow2(u + 28) == TWO_28 as real * Pow2(u)
    ensures Pow2(u + 29) == TWO_29 as real * Pow2(u)
    ensures Pow2(u + 30) == TWO_30 as real * Pow2(u)
    ensures Pow2(u + 52) == TWO_52 as real * Pow2(u)
  {
    FiveUp(u); FiveUp(u + 5); FiveUp(u + 10); FiveUp(u + 15); FiveUp(u + 20);
    Pow2Next(u + 25); Pow2Next(u + 26); Pow2Next(u + 27); Pow2Next(u + 28); Pow2Next(u + 29);
    FiveUp(u + 30); FiveUp(u + 35); FiveUp(u + 40); FiveUp(u + 45);
    Pow2Next(u + 50); Pow2Next(u + 51);
  }

  /** A step of 2^29 or of 2^30 units. */
  predicate Step(g: int, w: int) {
    (g == 29 && w == TWO_29) || (g == 30 && w == TWO_30)
  }

  /** The integers that have 53 bits above the step. */
  predicate InReach(v: int, w: int) {
    w * TWO_52 <= v < 2 * w * TWO_52
  }

  lemma Shift(c: int, u: int)
    ensures Units(c, u + 28) == Units(c * TWO_28, u)
    ensures Units(c, u + 29) == Units(c * TWO_29, u)
    ensures Units(c, u + 30) == Units(c * TWO_30, u)
  {
    UpperPowers(u);
  }

  lemma UnitsAdd(a: int, b: int, u: int)
    ensures Units(a + b, u) == Units(a, u) + Units(b, u)
  {
  }

  lemma StepUnits(c: int, u: int, g: int, w: int)
    requires Step(g, w)
    ensures Pow2(u + g) == Units(w, u)
    ensures Units(c * w, u) == Units(c, u + g)
  {
    UpperPowers(u);
    Shift(c, u);
  }

  lemma StepMultiple(m: int, u: int, g: int, w: int)
    requires Step(g, w) && m % w == 0
    ensures Multiple(Units(m, u), u + g)
  {
    var c := m / w;
    assert m == c * w;
    StepUnits(c, u, g, w);
  }

  lemma UnitsOrder(a: int, b: int, u: int)
    ensures a <= b ==> Units(a, u) <= Units(b, u)
    ensures a < b ==> Units(a, u) < Units(b, u)
  {
    if a <= b {
      Scale(a as real, b as real, Pow2(u));
    }
    if a < b {
      Scale(a as real, b as real - 1.0, Pow2(u));
    }
  }

  lemma StepPower(u: int, g: int, w: int)
    requires Step(g, w)
    ensures Pow2(u + g + 52) == Units(w * TWO_52, u)
  {
    UpperPowers(u);
    UpperPowers(u + g);
  }

  lemma StepBinade(v: int, u: int, g: int, w: int)
    requires Step(g, w) && InReach(v, w)
    ensures Binade(u + g + 52, Units(v, u))
  {
    StepPower(u, g, w);
    UnitsOrder(w * TWO_52, v, u);
    UnitsOrder(v, 2 * (w * TWO_52), u);
  }

  /** Less than half a step away, rounding finds the step. */
  lemma RoundsToStep(f: Floats, v: int, m: int, u: int, g: int, w: int)
    requires IEEE(f) && Step(g, w) && InReach(v, w) && m % w == 0 && -w < 2 * (v - m) < w
    ensures f.round(Units(v, u)) == Units(m, u)
  {
    StepBinade(v, u, g, w);
    StepMultiple(m, u, g, w);
    StepUnits(1, u, g, w);
    UnitsOrder(-w, 2 * (v - m), u);
    UnitsOrder(2 * (v - m), w, u);
    UnitsAdd(v - m, v - m, u);
    UnitsAdd(v - m, m, u);
    UnitsAdd(w, -w, u);
    RoundsTo(f, u + g + 52, Units(v, u), Units(m, u));
  }

  lemma StepMiddle(c: int, u: int, g: int, w: int)
    requires Step(g, w)
    ensures HalfWay(c, u + g) == Units(c * w + w / 2, u)
  {
    Shift(2 * c + 1, u);
    assert g == 29 ==> (2 * c + 1) * TWO_28 == c * w + w / 2;
    assert g == 30 ==> (2 * c + 1) * TWO_29 == c * w + w / 2;
  }

  lemma EvenStep(c: int, g: int, w: int)
    requires Step(g, w)
    ensures c * w % (2 * w) == 0 <==> c % 2 == 0
  {
    var h := c / 2;
    assert c * w == h * (2 * w) + (c % 2) * w;
  }

  /** Half a step away, it finds the even one. */
  lemma RoundsToEven(f: Floats, m: int, u: int, g: int, w: int)
    requires IEEE(f) && Step(g, w) && m % w == 0 && InReach(m + w / 2, w)
    ensures f.round(Units(m + w / 2, u)) == Units(if m % (2 * w) == 0 then m else m + w, u)
  {
    var c := m / w;
    assert m == c * w;
    assert m % (2 * w) == 0 <==> c % 2 == 0 by { EvenStep(c, g, w); }
    StepBinade(m + w / 2, u, g, w);
    StepMiddle(c, u, g, w);
    StepUnits(c, u, g, w);
    StepUnits(c + 1, u, g, w);
    assert (c + 1) * w == m + w;
  }

  lemma SameUnits(a: int, b: int, u: int)
    requires Units(a, u) == Units(b, u)
    ensures a == b
  {
    Apart(a, b, Pow2(u), Units(a, u), Units(b, u));
  }

  lemma StepDivides(c: int, g: int, w: int)
    requires Step(g, w)
    ensures c * w % w == 0
  {
    if g == 29 {
      assert c * TWO_29 % TWO_29 == 0;
    } else {
      assert c * TWO_30 % TWO_30 == 0;
    }
  }

  /** Of these integers exactly the multiples of the step are doubles. */
  lemma DoubleExactly(f: Floats, v: int, u: int, g: int, w: int)
    requires IEEE(f) && Step(g, w) && InReach(v, w)
    ensures f.round(Units(v, u)) == Units(v, u) <==> v % w == 0
  {
    if v % w == 0 {
      RoundsToStep(f, v, v, u, g, w);
    } else if f.round(Units(v, u)) == Units(v, u) {
      StepBinade(v, u, g, w);
      var c :| Units(v, u) == Units(c, u + g);
      StepUnits(c, u, g, w);
      SameUnits(v, c * w, u);
      StepDivides(c, g, w);
    }
  }

  // ---- Printing the number of cores ----

  lemma WiderPowers()
    ensures Pow2(-30) == 1.0 / 1073741824.0
    ensures Pow2(-1) == 0.5
    ensures Pow2(34) == 17179869184.0
    ensures Pow2(63) == TWO_63 as real
    ensures Pow2(64) == TWO_64 as real
  {
    Pow2Values();
    assert Pow2(-30) == 1.0 / Pow2(30);
    assert Pow2(-1) == 1.0 / Pow2(1);
    Pow2Next(0);
    Pow2Next(30); Pow2Next(31); Pow2Next(32); Pow2Next(33);
    FiveUp(53); FiveUp(58);
    Pow2Next(63);
  }

  lemma {:induction false} Pow2Monotone(a: int, b: int)
    requires a <= b
    ensures Pow2(a) <= Pow2(b)
    decreases b - a
  {
    if a < b {
      Pow2Next(a);
      Pow2Monotone(a + 1, b);
    }
  }

  /** The limit as a double. */
  lemma LimitRange(f: Floats, n: int64)
    requires IEEE(f) && n > 0
    ensures 1.0 <= f.round(n as real) <= TWO_63 as real
  {
    Pow2Values();
    WiderPowers();
    var e := FindBinade(n as real, 0, 63);
    RoundedRange(f, e, n as real);
    Pow2Monotone(0, e);
    Pow2Monotone(e + 1, 63);
  }

  /** The number of cores is printed and parsed without loss. */
  lemma CoresRoundTrip(f: Floats, n: int64)
    requires IEEE(f) && n > 0
    ensures var y := Cores(f, n);
      && Pow2(-30) <= y <= Pow2(34)
      && f.parse(FormatCPU(f, n)) == Some(y)
  {
    LimitRange(f, n);
    WiderPowers();
    var x := f.round(n as real) / NANO as real;
    var e := FindBinade(x, -30, 34);
    RoundedRange(f, e, x);
    RoundTwice(f, e, x);
    Pow2Monotone(-30, e);
    Pow2Monotone(e + 1, 34);
    var y := f.round(x);
    if y == y.Floor as real {
      assert Truncate(y) == y.Floor;
    }
  }

  // ---- Limits that are no doubles ----

  lemma {:induction false} CoarseIsWhole(x: real, u: int)
    requires u >= 0 && Multiple(x, u)
    ensures x == x.Floor as real
    decreases u
  {
    if u == 0 {
      var k :| x == Units(k, 0);
      assert x == k as real;
    } else {
      MultipleFiner(x, u - 1);
      CoarseIsWhole(x, u - 1);
    }
  }

  /** Doubles from 2^53 on are whole. */
  lemma LargeIsWhole(f: Floats, e: int, x: real)
    requires IEEE(f) && Binade(e, x) && f.round(x) >= TWO_53 as real
    ensures f.round(x) == f.round(x).Floor as real
  {
    RoundedRange(f, e, x);
    Pow2Values();
    if e < 52 {
      Pow2Monotone(e + 1, 52);
    }
    CoarseIsWhole(f.round(x), e - 52);
  }

  /** A limit that is no double itself is never read back. */
  lemma OnlyDoublesSurvive(f: Floats, n: int64)
    requires IEEE(f) && n > 0 && f.round(n as real) != n as real
    ensures ParseCPU(f, FormatCPU(f, n)) != n
  {
    CoresRoundTrip(f, n);
    WiderPowers();
    var x := Cores(f, n) * NANO as real;
    var e := FindBinade(x, -30, 64);
    RoundTwice(f, e, x);
    RoundedRange(f, e, x);
    if n < TWO_53 {
      WholeIsExact(f, n);
    } else if Truncate(f.round(x)) == n {
      LargeIsWhole(f, e, x);
    }
  }

  // ---- Limits that are doubles ----

  /** n is Scaled(n) units of 2^u. */
  ghost predicate ScaledBy(n: int64, u: int)
    requires n > 0
  {
    n as real == Units(Scaled(n), u) && NANO * TWO_52 <= Scaled(n) < 2 * NANO * TWO_52
  }

  lemma DigitsOfStep(big: int)
    requires HasDigits(big)
    ensures big % TWO_29 == 0
  {
    if big >= TWO_82 {
      assert big == (2 * (big / TWO_30)) * TWO_29;
      StepDivides(2 * (big / TWO_30), 29, TWO_29);
    }
  }

  lemma DoubleIfDigits(f: Floats, n: int64, u: int)
    requires IEEE(f) && n > 0 && ScaledBy(n, u)
    ensures f.round(n as real) == n as real <==> HasDigits(Scaled(n))
  {
    if Scaled(n) >= TWO_82 {
      DoubleExactly(f, Scaled(n), u, 30, TWO_30);
    } else {
      DoubleExactly(f, Scaled(n), u, 29, TWO_29);
    }
  }

  lemma NoHalf(c: int, q: int)
    ensures 2 * (c * TWO_29 - q * NANO) != NANO
  {
    assert (2 * q + 1) * 1_953_125 == 2 * (q * 1_953_125 + 976_562) + 1;
  }

  /** No double lies halfway between two multiples of 10^9: 2^9 divides it and 10^9, but not 5 * 10^8. */
  lemma DriftRange(big: int)
    requires big % TWO_29 == 0
    ensures -NANO < 2 * Drift(big) < NANO
  {
    assert big == (big / TWO_29) * TWO_29;
    NoHalf(big / TWO_29, big / NANO);
  }

  lemma QuotientBinade(x: real, big: int, u: int)
    requires x * NANO as real == Units(big, u) && NANO * TWO_52 <= big < 2 * NANO * TWO_52
    ensures Binade(u + 52, x)
  {
    UpperPowers(u);
    UnitsOrder(NANO * TWO_52, big, u);
    UnitsOrder(big, 2 * NANO * TWO_52, u);
  }

  lemma UnitsNano(q: int, u: int)
    ensures Units(q, u) * NANO as real == Units(q * NANO, u)
  {
  }

  lemma QuotientError(x: real, big: int, q: int, u: int)
    requires x * NANO as real == Units(big, u) && -NANO < 2 * (big - q * NANO) < NANO
    ensures -Pow2(u) < 2.0 * (x - Units(q, u)) < Pow2(u)
  {
    var rest := big - q * NANO;
    UnitsNano(q, u);
    UnitsAdd(q * NANO, rest, u);
    UnitsAdd(rest, rest, u);
    UnitsOrder(-NANO, 2 * rest, u);
    UnitsOrder(2 * rest, NANO, u);
  }

  /** The quotient is rounded to the nearest multiple of 10^9. */
  lemma QuotientRounds(f: Floats, x: real, big: int, q: int, u: int)
    requires IEEE(f) && x * NANO as real == Units(big, u) && NANO * TWO_52 <= big < 2 * NANO * TWO_52
    requires -NANO < 2 * (big - q * NANO) < NANO
    ensures f.round(x) == Units(q, u)
  {
    QuotientBinade(x, big, u);
    QuotientError(x, big, q, u);
    RoundsTo(f, u + 52, x, Units(q, u));
  }

  lemma QuotientOf(f: Floats, n: int64, u: int)
    requires IEEE(f) && n > 0 && ScaledBy(n, u) && f.round(n as real) == n as real
    requires Scaled(n) % TWO_29 == 0
    ensures Cores(f, n) * NANO as real == Units(Scaled(n) + Drift(Scaled(n)), u)
  {
    var big := Scaled(n);
    var q := Nearest(big);
    DriftRange(big);
    QuotientRounds(f, n as real / NANO as real, big, q, u);
    UnitsNano(q, u);
  }

  /** How many units the rounded product lies above the limit. */
  function Overshoot(big: int, drift: int): int {
    if || big >= TWO_82
       || -TWO_28 < drift < TWO_28
       || ((drift == TWO_28 || drift == -TWO_28) && big % TWO_30 == 0) then 0
    else if drift > 0 then TWO_29
    else -TWO_29
  }

  lemma UpperReach(big: int)
    requires TWO_82 <= big < 2 * NANO * TWO_52 && big % TWO_30 == 0
    ensures InReach(big + Drift(big), TWO_30)
  {
    if big > TWO_82 {
      assert big == (big / TWO_30) * TWO_30;
    }
  }

  lemma UpperProduct(f: Floats, big: int, u: int)
    requires IEEE(f) && TWO_82 <= big < 2 * NANO * TWO_52 && big % TWO_30 == 0
    ensures f.round(Units(big + Drift(big), u)) == Units(big, u)
  {
    UpperReach(big);
    var drift := Drift(big);
    assert -TWO_30 < 2 * drift < TWO_30;
    RoundsToStep(f, big + drift, big, u, 30, TWO_30);
  }

  lemma StepBelow(big: int)
    requires big % TWO_29 == 0
    ensures (big - TWO_29) % TWO_29 == 0
    ensures (big - TWO_29) % TWO_30 == 0 <==> big % TWO_30 != 0
  {
    assert big == (big / TWO_29) * TWO_29;
  }

  lemma StepsAround(big: int)
    requires big % TWO_29 == 0
    ensures (big - TWO_29) % TWO_29 == 0 && (big + TWO_29) % TWO_29 == 0
  {
  }

  lemma LowerProduct(f: Floats, big: int, drift: int, u: int)
    requires IEEE(f) && NANO * TWO_52 <= big < TWO_82 && big % TWO_29 == 0 && -NANO < 2 * drift < NANO
    ensures f.round(Units(big + drift, u)) == Units(big + Overshoot(big, drift), u)
  {
    if drift == TWO_28 {
      RoundsToEven(f, big, u, 29, TWO_29);
    } else if drift == -TWO_28 {
      StepBelow(big);
      RoundsToEven(f, big - TWO_29, u, 29, TWO_29);
    } else {
      StepsAround(big);
      RoundsToStep(f, big + drift, big + Overshoot(big, drift), u, 29, TWO_29);
    }
  }

  lemma ProductOf(f: Floats, big: int, u: int)
    requires IEEE(f) && NANO * TWO_52 <= big < 2 * NANO * TWO_52 && HasDigits(big)
    ensures f.round(Units(big + Drift(big), u)) == Units(big, u) + Units(Overshoot(big, Drift(big)), u)
  {
    if big >= TWO_82 {
      UpperProduct(f, big, u);
    } else {
      DriftRange(big);
      LowerProduct(f, big, Drift(big), u);
    }
    UnitsAdd(big, Overshoot(big, Drift(big)), u);
  }

  lemma ParsedProduct(f: Floats, n: int64)
    requires IEEE(f) && n > 0
    ensures ParseCPU(f, FormatCPU(f, n)) == Truncate(f.round(Cores(f, n) * NANO as real))
  {
    CoresRoundTrip(f, n);
  }

  /** What is cut off after the point and read back is the limit and the overshoot. */
  lemma ReadBack(f: Floats, n: int64, u: int)
    requires IEEE(f) && n > 0 && ScaledBy(n, u) && HasDigits(Scaled(n))
    ensures f.round(Cores(f, n) * NANO as real)
         == n as real + Units(Overshoot(Scaled(n), Drift(Scaled(n))), u)
  {
    DigitsOfStep(Scaled(n));
    DoubleIfDigits(f, n, u);
    QuotientOf(f, n, u);
    ProductOf(f, Scaled(n), u);
  }

  /** Below 2^23 * 10^9 a step of the product is at most a half, and from there on at least one. */
  lemma StepSize(n: int64, u: int)
    requires n > 0 && ScaledBy(n, u)
    ensures n < NANO * TWO_23 ==> Units(TWO_29, u) <= 0.5
    ensures n >= NANO * TWO_23 ==> Units(TWO_29, u) >= 1.0
  {
    Pow2Values();
    WiderPowers();
    UpperPowers(u);
    UpperPowers(-29);
    UpperPowers(-30);
    if u <= -30 {
      Pow2Monotone(u + 29, -1);
      UnitsOrder(Scaled(n), 2 * NANO * TWO_52, u);
    } else {
      Pow2Monotone(0, u + 29);
      UnitsOrder(NANO * TWO_52, Scaled(n), u);
    }
  }

  lemma CutOff(n: int64, d: real)
    requires n > 0
    ensures 0.0 <= d <= 0.5 ==> Truncate(n as real + d) == n
    ensures -0.5 <= d < 0.0 ==> Truncate(n as real + d) == n - 1
    ensures d < 0.0 || d >= 1.0 ==> Truncate(n as real + d) != n
  {
  }

  /** What is left of a limit and an overshoot of a step. */
  lemma StepIsCut(n: int64, u: int, over: int)
    requires n > 0 && ScaledBy(n, u) && (over == 0 || over == TWO_29 || over == -TWO_29)
    ensures var result := Truncate(n as real + Units(over, u));
      && (over == 0 ==> result == n)
      && (over > 0 ==> (result == n <==> n < NANO * TWO_23))
      && (over < 0 ==> result != n)
      && (over < 0 && n < NANO * TWO_23 ==> result == n - 1)
  {
    StepSize(n, u);
    UnitsAdd(TWO_29, -TWO_29, u);
    UnitsOrder(0, TWO_29, u);
    CutOff(n, Units(over, u));
  }

  /** A limit that is a double comes back as it was, or a step above or below. */
  lemma DoubleIsRead(f: Floats, n: int64)
    requires IEEE(f) && n > 0 && HasDigits(Scaled(n))
    ensures var result, over := ParseCPU(f, FormatCPU(f, n)), Overshoot(Scaled(n), Drift(Scaled(n)));
      && (over == 0 ==> result == n)
      && (over > 0 ==> (result == n <==> n < NANO * TWO_23))
      && (over < 0 ==> result != n)
      && (over < 0 && n < NANO * TWO_23 ==> result == n - 1)
  {
    Pow2Values();
    var u := ScaledUnits(n, 0);
    ParsedProduct(f, n);
    ReadBack(f, n, u);
    StepIsCut(n, u, Overshoot(Scaled(n), Drift(Scaled(n))));
  }

  lemma SurvivesMeans(n: int64)
    requires n > 0
    ensures var over := Overshoot(Scaled(n), Drift(Scaled(n)));
      Survives(n) <==> HasDigits(Scaled(n)) && (over == 0 || (over > 0 && n < NANO * TWO_23))
  {
  }

  /** A CPU limit is read back as it was exactly if it survives in the sense above. */
  lemma SurvivesExactly(f: Floats, n: int64)
    requires IEEE(f) && n > 0
    ensures ParseCPU(f, FormatCPU(f, n)) == n <==> Survives(n)
  {
    SurvivesMeans(n);
    if HasDigits(Scaled(n)) {
      DoubleIsRead(f, n);
    } else {
      Pow2Values();
      var u := ScaledUnits(n, 0);
      DoubleIfDigits(f, n, u);
      OnlyDoublesSurvive(f, n);
    }
  }

  // ---- Instances ----

  lemma {:induction false} ScaledFactor(n: int, c: int, w: int) returns (d: int)
    requires n > 0 && n == c * w
    ensures Scaled(n) == d * w
    decreases NANO * TWO_52 - n
  {
    if n >= NANO * TWO_52 {
      d := c;
    } else {
      assert 2 * n == (2 * c) * w;
      d := ScaledFactor(2 * n, 2 * c, w);
    }
  }

  lemma FiveDoublings(n: int)
    requires 0 < n && 16 * n < NANO * TWO_52
    ensures Scaled(n) == Scaled(32 * n)
  {
    assert Scaled(n) == Scaled(2 * n);
    assert Scaled(2 * n) == Scaled(4 * n);
    assert Scaled(4 * n) == Scaled(8 * n);
    assert Scaled(8 * n) == Scaled(16 * n);
  }

  lemma ManyDoublings(n: int)
    requires 0 < n && n * 0x1000_0000 < NANO * TWO_52
    ensures Scaled(n) == Scaled(n * TWO_29)
  {
    FiveDoublings(n); FiveDoublings(n * 0x20); FiveDoublings(n * 0x400);
    FiveDoublings(n * 0x8000); FiveDoublings(n * 0x10_0000);
    var m := n * 0x200_0000;
    assert Scaled(m) == Scaled(2 * m) == Scaled(4 * m) == Scaled(8 * m) == Scaled(16 * m);
  }

  /** Limits below 2^53 are doubles, and those below 8388608 cores have a bit to spare. */
  lemma SmallLimits(n: int64)
    requires 0 < n < TWO_53
    ensures HasDigits(Scaled(n))
    ensures n < NANO * TWO_23 ==> Scaled(n) % TWO_30 == 0
  {
    ManyDoublings(n);
    if n < NANO * TWO_23 {
      assert Scaled(n * TWO_29) == Scaled(n * TWO_30);
      var d := ScaledFactor(n * TWO_30, n, TWO_30);
      StepDivides(d, 30, TWO_30);
      StepDivides(2 * d, 29, TWO_29);
    } else {
      StepDivides(n, 29, TWO_29);
    }
  }

  lemma RoundedDown(big: int)
    requires big % TWO_30 == 0
    ensures Overshoot(big, Drift(big)) < 0 <==> big < TWO_82 && TWO_28 < big % NANO < NANO / 2
  {
    StepDivides(2 * (big / TWO_30), 29, TWO_29);
    assert big == (2 * (big / TWO_30)) * TWO_29;
    DriftRange(big);
  }

  /** Below 8388608 cores a limit survives or comes back one billionth short. It does the latter
      exactly if its significand lies in the lower part of a binade and is rounded down by more
      than 2^28. */
  lemma ShortByOneExactly(f: Floats, n: int64)
    requires IEEE(f) && 0 < n < NANO * TWO_23
    ensures ParseCPU(f, FormatCPU(f, n))
         == if Scaled(n) < TWO_82 && TWO_28 < Scaled(n) % NANO < NANO / 2 then n - 1 else n
  {
    SmallLimits(n);
    DoubleIsRead(f, n);
    RoundedDown(Scaled(n));
  }

  /** A text that stands for a whole number of billionths below 2^53 is read as that many. */
  lemma TextIsRead(f: Floats, text: string, x: real, n: int64)
    requires IEEE(f) && f.parse(text) == Some(x) && x * 1_000_000_000.0 == n as real && 0 < n < TWO_53
    ensures ParseCPU(f, text) == n
  {
    WholeIsExact(f, n);
  }

  /** The limits below 2^53 in the upper part of a binade of cores, where multiplying by 10^9 crosses
      a power of two, always survive. */
  lemma UpperPartSurvives(f: Floats, n: int64)
    requires IEEE(f) && 0 < n < TWO_53 && Scaled(n) >= TWO_82
    ensures ParseCPU(f, FormatCPU(f, n)) == n
  {
    SmallLimits(n);
    SurvivesExactly(f, n);
  }

  lemma NineTwos(d: int, c: int)
    requires d * 1_953_125 == c * TWO_29
    ensures d * 1_953_125 % NANO == 0
  {
    assert d == 512 * (109 * 0x10_0000 * c - 415802 * d);
    assert d * 1_953_125 == (d / 512) * NANO;
  }

  /** The limits below 2^53 that are whole numbers of cores, halves, quarters and so on, as far as
      billionths go, always survive. */
  lemma ExactCoresSurvive(f: Floats, n: int64)
    requires IEEE(f) && 0 < n < TWO_53 && n % 1_953_125 == 0
    ensures ParseCPU(f, FormatCPU(f, n)) == n
  {
    var d := ScaledFactor(n, n / 1_953_125, 1_953_125);
    SmallLimits(n);
    DigitsOfStep(Scaled(n));
    NineTwos(d, Scaled(n) / TWO_29);
    SurvivesExactly(f, n);
  }

  lemma WholeFactor(c: int)
    ensures c * NANO % 1_953_125 == 0
  {
    var k := 512 * c;
    assert c * NANO == k * 1_953_125;
  }

  /** Whole cores below 2^53 billionths survive. */
  lemma WholeCoresSurvive(f: Floats, n: int64)
    requires IEEE(f) && 0 < n < TWO_53 && n % NANO == 0
    ensures ParseCPU(f, FormatCPU(f, n)) == n
  {
    WholeFactor(n / NANO);
    ExactCoresSurvive(f, n);
  }

  /** 1.001 cores do not survive: they come back one billionth short. */
  lemma JustOverOneCoreDrifts(f: Floats)
    requires IEEE(f)
    ensures ParseCPU(f, FormatCPU(f, 1_001_000_000)) == 1_000_999_999
  {
    ManyDoublings(1_001_000_000);
    var m := 1_001_000_000 * TWO_29;
    FiveDoublings(m); FiveDoublings(32 * m); FiveDoublings(0x400 * m); FiveDoublings(0x8000 * m);
    var p := 0x10_0000 * m;
    assert Scaled(p) == Scaled(2 * p) == Scaled(4 * p) == 8 * p;
    ShortByOneExactly(f, 1_001_000_000);
  }
}
