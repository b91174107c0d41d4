/** Fares in whole cents: the price of a trip, the platform's share, and percentages. */
module Pricing {
  import opened Basics

  datatype Rule = Rule(base: int, perKm: int, perMin: int, minimum: int, surgeBP: int)

  /** What the tariff table's checks admit. */
  predicate Tariff(r: Rule) {
    r.base >= 0 && r.perKm >= 0 && r.perMin >= 0 && r.minimum >= 0 && 10000 <= r.surgeBP <= 30000
  }

  function AtLeast(x: int, low: int): int { if x < low then low else x }

  /** The metered part, each term rounded to the nearest cent. */
  function Metered(r: Rule, distanceM: int, durationS: int): int {
    r.base
    + GoDiv(r.perKm * AtLeast(distanceM, 0) + 500, 1000)
    + GoDiv(r.perMin * AtLeast(durationS, 0) + 30, 60)
  }

  function Surged(p: int, surgeBP: int): int { GoDiv(p * AtLeast(surgeBP, 10000) + 5000, 10000) }

  function UpToTen(p: int): int { GoDiv(p + 9, 10) * 10 }

  function Compute(r: Rule, distanceM: int, durationS: int): int {
    AtLeast(UpToTen(Surged(Metered(r, distanceM, durationS), r.surgeBP)), r.minimum)
  }

  function Commission(price: int, bp: int): int {
    if bp < 0 then 0 else GoDiv(price * bp + 5000, 10000)
  }

  /** Go's division truncates; the correction below turns it into a floor. */
  function Percent(amount: int, bps: int): int {
    var v := amount * bps + 5000;
    GoDiv(if v < 0 then v - 9999 else v, 10000)
  }

  // ------------------------------------------------------------------- rounding

  /** A share in basis points is rounded half up, to the floor, for amounts and rates of any sign. */
  lemma PercentIsFloor(amount: int, bps: int)
    ensures Percent(amount, bps) == (amount * bps + 5000) / 10000
    ensures 10000 * Percent(amount, bps) <= amount * bps + 5000 < 10000 * Percent(amount, bps) + 10000
  {
    FloorByCorrection(amount * bps + 5000);
  }

  lemma FloorByCorrection(v: int)
    ensures GoDiv(if v < 0 then v - 9999 else v, 10000) == v / 10000
  {
    if v < 0 {
      var q := v / 10000;
      assert 10000 * q <= v < 10000 * q + 10000;
      assert -(v - 9999) / 10000 == -q;
    }
  }

  /** The two roundings the code base has for a platform share agree. */
  lemma CommissionIsPercent(price: int, bp: int)
    requires price >= 0 && bp >= 0
    ensures Commission(price, bp) == Percent(price, bp)
  {
    PercentIsFloor(price, bp);
    assert price * bp >= 0;
  }

  /** They part exactly where truncation rounds a negative amount up. */
  lemma CommissionPartsFromPercent(price: int, bp: int)
    requires bp >= 0
    ensures Commission(price, bp) == Percent(price, bp) <==> price * bp + 5000 >= 0 || (price * bp + 5000) % 10000 == 0
  {
    PercentIsFloor(price, bp);
    TruncationVersusFloor(price * bp + 5000);
  }

  lemma TruncationVersusFloor(v: int)
    ensures GoDiv(v, 10000) == v / 10000 <==> v >= 0 || v % 10000 == 0
  {
    if v < 0 {
      var q, m := v / 10000, v % 10000;
      assert v == 10000 * q + m && 0 <= m < 10000;
      if m == 0 {
        assert -v == 10000 * -q;
      } else {
        assert -v == 10000 * (-q - 1) + (10000 - m); assert -v / 10000 == -q - 1;
      }
    }
  }

  // --------------------------------------------------------------- monotonicity

  /** No worse off for the driver: a rule with every tariff at least as high. */
  predicate Dearer(a: Rule, b: Rule) {
    a.base <= b.base && a.perKm <= b.perKm && a.perMin <= b.perMin && a.minimum <= b.minimum && a.surgeBP <= b.surgeBP
  }

  lemma ProductGrows(a: int, b: int, c: int, d: int)
    requires 0 <= a <= b && 0 <= c <= d
    ensures 0 <= a * c <= b * d
  {
    assert a * c <= b * c <= b * d;
  }

  lemma QuotientGrows(a: int, b: int, n: int)
    requires 0 <= a <= b && n in {10, 60, 1000, 10000}
    ensures 0 <= GoDiv(a, n) <= GoDiv(b, n)
  {
  }

  lemma MeteredGrows(a: Rule, b: Rule, d1: int, d2: int, t1: int, t2: int)
    requires Tariff(a) && Tariff(b) && Dearer(a, b) && d1 <= d2 && t1 <= t2
    ensures 0 <= Metered(a, d1, t1) <= Metered(b, d2, t2)
  {
    ProductGrows(a.perKm, b.perKm, AtLeast(d1, 0), AtLeast(d2, 0));
    ProductGrows(a.perMin, b.perMin, AtLeast(t1, 0), AtLeast(t2, 0));
    QuotientGrows(a.perKm * AtLeast(d1, 0) + 500, b.perKm * AtLeast(d2, 0) + 500, 1000);
    QuotientGrows(a.perMin * AtLeast(t1, 0) + 30, b.perMin * AtLeast(t2, 0) + 30, 60);
  }

  lemma SurgedGrows(p: int, q: int, s1: int, s2: int)
    requires 0 <= p <= q && 0 <= s1 <= s2
    ensures 0 <= Surged(p, s1) <= Surged(q, s2)
  {
    ProductGrows(p, q, AtLeast(s1, 10000), AtLeast(s2, 10000));
    QuotientGrows(p * AtLeast(s1, 10000) + 5000, q * AtLeast(s2, 10000) + 5000, 10000);
  }

  /** A longer or slower trip, a higher surge, or a dearer tariff never costs less. */
  lemma PriceGrows(a: Rule, b: Rule, d1: int, d2: int, t1: int, t2: int)
    requires Tariff(a) && Tariff(b) && Dearer(a, b) && d1 <= d2 && t1 <= t2
    ensures Compute(a, d1, t1) <= Compute(b, d2, t2)
  {
    var p, q := Metered(a, d1, t1), Metered(b, d2, t2);
    MeteredGrows(a, b, d1, d2, t1, t2);
    SurgedGrows(p, q, a.surgeBP, b.surgeBP);
    QuotientGrows(Surged(p, a.surgeBP) + 9, Surged(q, b.surgeBP) + 9, 10);
  }

  /** At least the minimum, and either it or a round number of ten cents. */
  lemma MinimumOrRound(r: Rule, distanceM: int, durationS: int)
    ensures Compute(r, distanceM, durationS) >= r.minimum
    ensures Compute(r, distanceM, durationS) == r.minimum || Compute(r, distanceM, durationS) % 10 == 0
  {
    var q := GoDiv(Surged(Metered(r, distanceM, durationS), r.surgeBP) + 9, 10);
    assert (q * 10) % 10 == 0;
  }

  // ------------------------------------------------------------------- accuracy

  /** The exact price before any rounding. */
  function ExactlyMetered(r: Rule, distanceM: int, durationS: int): real {
    r.base as real
    + (r.perKm * AtLeast(distanceM, 0)) as real / 1000.0
    + (r.perMin * AtLeast(durationS, 0)) as real / 60.0
  }

  function Exact(r: Rule, distanceM: int, durationS: int): real { ExactlyMetered(r, distanceM, durationS) * Surge(r) }

  function Surge(r: Rule): real { r.surgeBP as real / 10000.0 }

  /** Rounding to the nearest: within half a unit, the half going up. */
  lemma NearestHalf(x: int, n: int)
    requires x >= 0 && n > 0 && n % 2 == 0
    ensures var q := GoDiv(x + n / 2, n); 2 * x - n < 2 * n * q <= 2 * x + n
  {
    var q := (x + n / 2) / n;
    assert n * q <= x + n / 2 < n * q + n;
  }

  /** Short of the round-up to ten cents the price is within half a cent plus one cent times the
      surge of the exact one; the round-up adds at most nine. */
  lemma Accurate(r: Rule, distanceM: int, durationS: int)
    requires Tariff(r)
    ensures var p := UpToTen(Surged(Metered(r, distanceM, durationS), r.surgeBP)) as real;
      Exact(r, distanceM, durationS) - Surge(r) - 0.5 < p <= Exact(r, distanceM, durationS) + Surge(r) + 9.5
    ensures var fare, exact := Compute(r, distanceM, durationS) as real, Exact(r, distanceM, durationS);
      && exact - Surge(r) - 0.5 < fare
      && (fare <= exact + Surge(r) + 9.5 || fare == r.minimum as real)
  {
    var m := Metered(r, distanceM, durationS);
    MeteredGrows(r, r, distanceM, distanceM, durationS, durationS);
    MeteredAccurate(r, distanceM, durationS);
    var metered, ms := ExactlyMetered(r, distanceM, durationS), m as real * Surge(r);
    ScaledBounds(m as real, metered, Surge(r), ms, Exact(r, distanceM, durationS));
    SurgeRounds(m, r.surgeBP, ms);
  }

  lemma MeteredAccurate(r: Rule, distanceM: int, durationS: int)
    requires Tariff(r)
    ensures ExactlyMetered(r, distanceM, durationS) - 1.0 < Metered(r, distanceM, durationS) as real
      <= ExactlyMetered(r, distanceM, durationS) + 1.0
  {
    ProductGrows(0, r.perKm, 0, AtLeast(distanceM, 0));
    ProductGrows(0, r.perMin, 0, AtLeast(durationS, 0));
    TermAccurate(r.perKm * AtLeast(distanceM, 0), 1000);
    TermAccurate(r.perMin * AtLeast(durationS, 0), 60);
  }

  lemma TermAccurate(x: int, n: int)
    requires x >= 0 && n in {60, 1000}
    ensures x as real / n as real - 0.5 < GoDiv(x + n / 2, n) as real <= x as real / n as real + 0.5
  {
    NearestHalf(x, n);
  }

  lemma PositiveProduct(a: real, b: real)
    requires a > 0.0 && b > 0.0
    ensures a * b > 0.0
  {
  }

  lemma ProductOfDifference(a: real, b: real, s: real)
    ensures (a - b) * s == a * s - b * s
  {
  }

  lemma AboveMinusOne(d: real, s: real)
    requires d > -1.0 && s > 0.0
    ensures d * s > -s
  {
    var e := d + 1.0;
    PositiveProduct(e, s);
    ProductOfDifference(e, 1.0, s);
    assert d == e - 1.0;
  }

  lemma AtMostOne(d: real, s: real)
    requires d <= 1.0 && s > 0.0
    ensures d * s <= s
  {
    var e := 1.0 - d;
    ProductOfDifference(1.0, d, s);
    if d < 1.0 { PositiveProduct(e, s); }
  }

  lemma ScaledBounds(m: real, exact: real, s: real, ms: real, es: real)
    requires exact - 1.0 < m <= exact + 1.0 && s > 0.0 && ms == m * s && es == exact * s
    ensures es - s < ms <= es + s
  {
    var d := m - exact;
    AboveMinusOne(d, s);
    AtMostOne(d, s);
    assert d * s == ms - es by { ProductOfDifference(m, exact, s); }
  }

  /** The surge is rounded to the nearest cent and the result up to ten cents. */
  lemma SurgeRounds(m: int, surgeBP: int, exact: real)
    requires m >= 0 && 10000 <= surgeBP && exact == m as real * (surgeBP as real / 10000.0)
    ensures exact - 0.5 < UpToTen(Surged(m, surgeBP)) as real <= exact + 9.5
  {
    ProductGrows(0, m, 0, surgeBP);
    NearestHalf(m * surgeBP, 10000);
    var s := Surged(m, surgeBP);
    assert s <= UpToTen(s) <= s + 9;
    assert exact == (m * surgeBP) as real / 10000.0;
  }
}
