/** The bank-account check: MOD 97-10 of ISO/IEC 7064, as ISO 13616 uses it for IBANs. */
module Iban {

  // ---------------------------------------------------------------- the text

  predicate IsDigit(c: char) { '0' <= c <= '9' }

  predicate IsLetter(c: char) { 'A' <= c <= 'Z' }

  predicate IsSpace(c: char) { c in {' ', '\t', '\n', '\r'} || c as int == 11 || c as int == 12 }

  function Upper(c: char): char { if 'a' <= c <= 'z' then (c as int - 32) as char else c }

  /** Spaces dropped, letters in upper case. */
  function Normalize(s: string): string {
    if s == "" then ""
    else
      var c := s[|s| - 1];
      Normalize(s[..|s| - 1]) + (if IsSpace(c) then "" else [Upper(c)])
  }

  const LENGTHS: map<string, nat> :=
    map["XK" := 20, "AL" := 28, "DE" := 22, "AT" := 20, "CH" := 21, "MK" := 19, "ME" := 22,
    "RS" := 22, "IT" := 27, "FR" := 27, "NL" := 18, "BE" := 16, "GB" := 22, "SI" := 19, "HR" := 21]

  predicate Alphanumeric(s: string) { forall i :: 0 <= i < |s| ==> IsDigit(s[i]) || IsLetter(s[i]) }

  predicate Shape(s: string) {
    15 <= |s| <= 34 && Alphanumeric(s) && (s[..2] in LENGTHS ==> |s| == LENGTHS[s[..2]])
  }

  function Rearranged(s: string): string
    requires |s| >= 4
  {
    s[4..] + s[..4]
  }

  // ---------------------------------------------------------------- the value

  /** A digit stands for itself, a letter for two digits, A = 10 to Z = 35. */
  function Value(c: char): nat {
    if IsLetter(c) then c as int - 'A' as int + 10 else if IsDigit(c) then c as int - '0' as int else 0
  }

  function DigitsOf(c: char): seq<nat> {
    if IsLetter(c) then [Value(c) / 10, Value(c) % 10] else [Value(c)]
  }

  /** The decimal expansion, of any length. */
  function Expansion(s: string): seq<nat> {
    if s == "" then [] else Expansion(s[..|s| - 1]) + DigitsOf(s[|s| - 1])
  }

  function Number(digits: seq<nat>): nat {
    if digits == [] then 0 else Number(digits[..|digits| - 1]) * 10 + digits[|digits| - 1]
  }

  predicate Valid(s: string) { Shape(s) && Number(Expansion(Rearranged(s))) % 97 == 1 }

  // ------------------------------------------------------------ the algorithm

  function Step(rem: nat, c: char): nat {
    if IsLetter(c) then (rem * 100 + Value(c)) % 97 else (rem * 10 + Value(c)) % 97
  }

  function Remainder(rem: nat, s: string): nat {
    if s == "" then rem else Step(Remainder(rem, s[..|s| - 1]), s[|s| - 1])
  }

  method ValidIBAN(input: string) returns (iban: string, ok: bool)
    ensures ok <==> Valid(Normalize(input))
    ensures iban == if Shape(Normalize(input)) then Normalize(input) else ""
  {
    var s := Normalize(input);
    if |s| < 15 || |s| > 34 {
      return "", false;
    }
    for i := 0 to |s|
      invariant Alphanumeric(s[..i])
    {
      if !IsLetter(s[i]) && !IsDigit(s[i]) {
        return "", false;
      }
    }
    assert s[..|s|] == s;
    if s[..2] in LENGTHS && |s| != LENGTHS[s[..2]] {
      return "", false;
    }
    var rem := Mod97(s[4..] + s[..4]);
    return s, rem == 1;
  }

  /** The number is far too long for a machine word: its remainder is kept digit by digit. */
  method Mod97(rearr: string) returns (rem: nat)
    requires Alphanumeric(rearr)
    ensures rem == Number(Expansion(rearr)) % 97
  {
    rem := 0;
    for i := 0 to |rearr|
      invariant rem == Remainder(0, rearr[..i])
    {
      assert rearr[..i + 1][..i] == rearr[..i];
      var c := rearr[i];
      if 'A' <= c <= 'Z' {
        rem := (rem * 100 + (c as int - 'A' as int + 10)) % 97;
      } else {
        rem := (rem * 10 + (c as int - '0' as int)) % 97;
      }
    }
    assert rearr[..|rearr|] == rearr;
    RemainderIsNumber(rearr);
  }

  // --------------------------------------- the running remainder is the number

  lemma NumberAppends(digits: seq<nat>, c: char)
    ensures Number(digits + DigitsOf(c)) ==
      if IsLetter(c) then Number(digits) * 100 + Value(c) else Number(digits) * 10 + Value(c)
  {
    if IsLetter(c) {
      var x, y := Value(c) / 10, Value(c) % 10;
      assert (digits + [x, y])[..|digits| + 1] == digits + [x];
      assert (digits + [x])[..|digits|] == digits;
    } else {
      assert (digits + [Value(c)])[..|digits|] == digits;
    }
  }

  lemma StepModular(n: nat, c: char)
    ensures Step(n % 97, c) == (if IsLetter(c) then n * 100 + Value(c) else n * 10 + Value(c)) % 97
  {
    var q, r := n / 97, n % 97;
    assert n == 97 * q + r;
    if IsLetter(c) {
      SameModulo(n * 100 + Value(c), r * 100 + Value(c), 100 * q);
    } else {
      SameModulo(n * 10 + Value(c), r * 10 + Value(c), 10 * q);
    }
  }

  lemma SameModulo(a: int, b: int, k: int)
    requires a == b + 97 * k
    ensures a % 97 == b % 97
  {
    assert a % 97 == (b + 97 * k) % 97;
  }

  lemma {:induction false} RemainderIsNumber(s: string)
    ensures Remainder(0, s) == Number(Expansion(s)) % 97
  {
    if s != "" {
      RemainderIsNumber(s[..|s| - 1]);
      NumberAppends(Expansion(s[..|s| - 1]), s[|s| - 1]);
      StepModular(Number(Expansion(s[..|s| - 1])), s[|s| - 1]);
    }
  }

  // ------------------------------------------------------- what the check catches

  predicate SameClass(a: char, b: char) { (IsDigit(a) && IsDigit(b)) || (IsLetter(a) && IsLetter(b)) }

  lemma {:induction false} RemainderAppends(r: nat, a: string, b: string)
    ensures Remainder(r, a + b) == Remainder(Remainder(r, a), b)
  {
    if b == "" {
      assert a + b == a;
    } else {
      assert (a + b)[..|a + b| - 1] == a + b[..|b| - 1];
      RemainderAppends(r, a, b[..|b| - 1]);
    }
  }

  lemma ModuloDifference(a: int, b: int)
    ensures a % 97 == b % 97 <==> (a - b) % 97 == 0
  {
    if a % 97 == b % 97 {
      SameModulo(a - b, 0, a / 97 - b / 97);
    }
    if (a - b) % 97 == 0 {
      SameModulo(a, b, (a - b) / 97);
    }
  }

  /** 10 is invertible modulo 97, with inverse 68. */
  lemma TenCancels(x: int)
    ensures (10 * x) % 97 == 0 ==> x % 97 == 0
  {
    if (10 * x) % 97 == 0 {
      var k := 10 * x / 97;
      SameModulo(x, 0, 68 * k - 7 * x);
    }
  }

  lemma SmallNonzero(x: int)
    ensures -97 < x < 97 && x != 0 ==> x % 97 != 0
  {
  }

  /** Multiplying by 10 or by 100 loses nothing modulo 97. */
  lemma StepInjective(r1: nat, r2: nat, c: char)
    requires r1 < 97 && r2 < 97 && r1 != r2
    ensures Step(r1, c) != Step(r2, c)
  {
    var x := r1 - r2;
    SmallNonzero(x);
    TenCancels(x);
    if IsLetter(c) {
      TenCancels(10 * x);
      ModuloDifference(r1 * 100 + Value(c), r2 * 100 + Value(c));
      assert r1 * 100 + Value(c) - (r2 * 100 + Value(c)) == 10 * (10 * x);
    } else {
      ModuloDifference(r1 * 10 + Value(c), r2 * 10 + Value(c));
      assert r1 * 10 + Value(c) - (r2 * 10 + Value(c)) == 10 * x;
    }
  }

  lemma {:induction false} RemainderInjective(r1: nat, r2: nat, s: string)
    requires r1 < 97 && r2 < 97 && r1 != r2
    ensures Remainder(r1, s) < 97 && Remainder(r2, s) < 97 && Remainder(r1, s) != Remainder(r2, s)
  {
    if s != "" {
      RemainderInjective(r1, r2, s[..|s| - 1]);
      StepInjective(Remainder(r1, s[..|s| - 1]), Remainder(r2, s[..|s| - 1]), s[|s| - 1]);
    }
  }

  lemma {:induction false} RemainderBelow(s: string)
    ensures Remainder(0, s) < 97
  {
    if s != "" { RemainderBelow(s[..|s| - 1]); }
  }

  /** Two texts that part company in the middle and then agree have different remainders. */
  lemma TailAgrees(p: string, m1: string, m2: string, q: string)
    requires Remainder(Remainder(0, p), m1) != Remainder(Remainder(0, p), m2)
    requires Remainder(Remainder(0, p), m1) < 97 && Remainder(Remainder(0, p), m2) < 97
    ensures Remainder(0, p + m1 + q) != Remainder(0, p + m2 + q)
  {
    RemainderAppends(0, p, m1);
    RemainderAppends(0, p, m2);
    RemainderAppends(0, p + m1, q);
    RemainderAppends(0, p + m2, q);
    RemainderInjective(Remainder(0, p + m1), Remainder(0, p + m2), q);
  }

  lemma SubstitutionSteps(r: nat, a: char, b: char)
    requires r < 97 && SameClass(a, b) && a != b
    ensures Step(r, a) != Step(r, b)
  {
    var base := if IsLetter(a) then r * 100 else r * 10;
    ModuloDifference(base + Value(a), base + Value(b));
    SmallNonzero(Value(a) - Value(b));
  }

  /** Exchanging two digits changes the value by 9d, two letters by 99d = 97d + 2d. */
  lemma TranspositionSteps(r: nat, a: char, b: char)
    requires r < 97 && SameClass(a, b) && a != b
    ensures Step(Step(r, a), b) != Step(Step(r, b), a)
  {
    var d := Value(a) - Value(b);
    if IsLetter(a) {
      StepModular(r * 100 + Value(a), b);
      StepModular(r * 100 + Value(b), a);
      ModuloDifference((r * 100 + Value(a)) * 100 + Value(b), (r * 100 + Value(b)) * 100 + Value(a));
      SameModulo(99 * d, 2 * d, d);
      SmallNonzero(2 * d);
    } else {
      StepModular(r * 10 + Value(a), b);
      StepModular(r * 10 + Value(b), a);
      ModuloDifference((r * 10 + Value(a)) * 10 + Value(b), (r * 10 + Value(b)) * 10 + Value(a));
      SmallNonzero(9 * d);
    }
  }

  lemma SubstitutionChanges(p: string, a: char, c: char, q: string)
    requires SameClass(a, c) && a != c
    ensures Remainder(0, p + [a] + q) != Remainder(0, p + [c] + q)
  {
    var r := Remainder(0, p);
    RemainderBelow(p);
    assert Remainder(r, [a]) == Step(r, a)
      && Remainder(r, [c]) == Step(r, c) by { assert [a][..0] == "" && [c][..0] == ""; }
    SubstitutionSteps(r, a, c);
    TailAgrees(p, [a], [c], q);
  }

  lemma ReplacedRearranged(s: string, k: nat, c: char) returns (p: string, q: string)
    requires 4 <= |s| && k < |s|
    ensures Rearranged(s) == p + [s[k]] + q && Rearranged(s[k := c]) == p + [c] + q
  {
    var rs, at := Rearranged(s), if k >= 4 then k - 4 else |s| - 4 + k;
    p, q := rs[..at], rs[at + 1..];
    assert rs == p + [s[k]] + q;
    assert Rearranged(s[k := c]) == p + [c] + q;
  }

  /** Replacing one character by another of its class is always caught. */
  lemma SubstitutionCaught(s: string, k: nat, c: char)
    requires k < |s| && Valid(s) && SameClass(s[k], c) && c != s[k]
    ensures !Valid(s[k := c])
  {
    var p, q := ReplacedRearranged(s, k, c);
    SubstitutionChanges(p, s[k], c, q);
    RemainderIsNumber(p + [s[k]] + q);
    RemainderIsNumber(p + [c] + q);
  }

  function Swapped(s: string, k: nat): string
    requires k + 1 < |s|
  {
    s[k := s[k + 1]][k + 1 := s[k]]
  }

  lemma SwapRearranged(s: string, k: nat)
    requires 4 <= |s| && k + 1 < |s| && k != 3
    ensures k >= 4 ==> Rearranged(s) == s[4..k] + [s[k], s[k + 1]] + (s[k + 2..] + s[..4])
    ensures k >= 4 ==> Rearranged(Swapped(s, k)) == s[4..k] + [s[k + 1], s[k]] + (s[k + 2..] + s[..4])
    ensures k < 4 ==> Rearranged(s) == (s[4..] + s[..k]) + [s[k], s[k + 1]] + s[k + 2..4]
    ensures k < 4 ==> Rearranged(Swapped(s, k)) == (s[4..] + s[..k]) + [s[k + 1], s[k]] + s[k + 2..4]
  {
    var t := Swapped(s, k);
    if k >= 4 {
      assert s[4..] == s[4..k] + [s[k], s[k + 1]] + s[k + 2..];
      assert t[4..] == s[4..k] + [s[k + 1], s[k]] + s[k + 2..];
      assert t[..4] == s[..4];
    } else {
      assert s[..4] == s[..k] + [s[k], s[k + 1]] + s[k + 2..4];
      assert t[..4] == s[..k] + [s[k + 1], s[k]] + s[k + 2..4];
      assert t[4..] == s[4..];
    }
  }

  lemma SwapChanges(p: string, a: char, b: char, q: string)
    requires SameClass(a, b) && a != b
    ensures Remainder(0, p + [a, b] + q) != Remainder(0, p + [b, a] + q)
  {
    RemainderBelow(p);
    var r := Remainder(0, p);
    RemainderOfTwo(r, a, b);
    RemainderOfTwo(r, b, a);
    TranspositionSteps(r, a, b);
    TailAgrees(p, [a, b], [b, a], q);
  }

  // Positions 4 and 5 end up at the two ends of the rearranged text.

  /** 10 to the m, modulo 97. */
  function Power(m: nat): nat { if m == 0 then 1 else Power(m - 1) * 10 % 97 }

  function Width(s: string): nat {
    if s == "" then 0 else Width(s[..|s| - 1]) + (if IsLetter(s[|s| - 1]) then 2 else 1)
  }

  function PowerTable(m: nat): nat {
    match m
    case 0 => 1 case 1 => 10 case 2 => 3 case 3 => 30 case 4 => 9 case 5 => 90 case 6 => 27 case 7 => 76
    case 8 => 81 case 9 => 34 case 10 => 49 case 11 => 5 case 12 => 50 case 13 => 15 case 14 => 53 case 15 => 45
    case 16 => 62 case 17 => 38 case 18 => 89 case 19 => 17 case 20 => 73 case 21 => 51 case 22 => 25 case 23 => 56
    case 24 => 75 case 25 => 71 case 26 => 31 case 27 => 19 case 28 => 93 case 29 => 57 case 30 => 85 case 31 => 74
    case 32 => 61 case 33 => 28 case 34 => 86 case 35 => 84 case 36 => 64 case 37 => 58 case 38 => 95 case 39 => 77
    case 40 => 91 case 41 => 37 case 42 => 79 case 43 => 14 case 44 => 43 case 45 => 42 case 46 => 32 case 47 => 29
    case 48 => 96 case 49 => 87 case 50 => 94 case 51 => 67 case 52 => 88 case 53 => 7 case 54 => 70 case 55 => 21
    case 56 => 16 case 57 => 63 case 58 => 48 case 59 => 92 case 60 => 47 case 61 => 82 case 62 => 44 case 63 => 52
    case 64 => 35 case 65 => 59
    case _ => 8
  }

  lemma TableStep(m: nat)
    requires 0 < m <= 66
    ensures PowerTable(m) == PowerTable(m - 1) * 10 % 97 && PowerTable(m) != 1
  {
  }

  /** The longest text has 68 digits, short of the 96 after which powers of 10 repeat. */
  lemma {:induction false} PowerIsNotOne(m: nat)
    requires m <= 66
    ensures Power(m) == PowerTable(m) && (m > 0 ==> Power(m) != 1)
  {
    if m > 0 {
      PowerIsNotOne(m - 1);
      TableStep(m);
    }
  }

  lemma {:induction false} WidthBounds(s: string)
    ensures |s| <= Width(s) <= 2 * |s|
  {
    if s != "" { WidthBounds(s[..|s| - 1]); }
  }

  lemma PowerOfLetter(n: nat)
    ensures Power(n + 2) == Power(n) * 100 % 97
  {
    var P := Power(n);
    assert Power(n + 2) == P * 10 % 97 * 10 % 97;
    SameModulo(P * 100, P * 10 % 97 * 10, P * 10 / 97 * 10);
  }

  /** One character of weight w more, seen from the number before it. */
  lemma StepAffine(r: nat, P: nat, R: nat, v: nat, w: nat)
    ensures ((r * P + R) % 97 * w + v) % 97 == (r * (P * w % 97) + (R * w + v) % 97) % 97
  {
    var n := r * P + R;
    assert n * w == n % 97 * w + 97 * (n / 97 * w);
    SameModulo(n * w + v, n % 97 * w + v, n / 97 * w);
    Shift(r, P, R, v, w);
  }

  /** Reading on from r is r shifted past the text, plus what the text gives from zero. */
  lemma {:induction false} RemainderAffine(r: nat, s: string)
    requires r < 97
    ensures Remainder(r, s) == (r * Power(Width(s)) + Remainder(0, s)) % 97
  {
    if s != "" {
      var init, c := s[..|s| - 1], s[|s| - 1];
      RemainderAffine(r, init);
      PowerOfLetter(Width(init));
      if IsLetter(c) {
        StepAffine(r, Power(Width(init)), Remainder(0, init), Value(c), 100);
      } else {
        StepAffine(r, Power(Width(init)), Remainder(0, init), Value(c), 10);
      }
    }
  }

  lemma Shift(r: nat, P: nat, R: nat, v: nat, w: nat)
    ensures ((r * P + R) * w + v) % 97 == (r * (P * w % 97) + (R * w + v) % 97) % 97
  {
    var q1, q2 := P * w / 97, (R * w + v) / 97;
    assert P * w == 97 * q1 + P * w % 97;
    assert R * w + v == 97 * q2 + (R * w + v) % 97;
    assert (r * P + R) * w + v == r * (P * w) + (R * w + v);
    assert r * (P * w) == r * (P * w % 97) + 97 * (r * q1);
    SameModulo((r * P + R) * w + v, r * (P * w % 97) + (R * w + v) % 97, r * q1 + q2);
  }

  /** 97 is prime: a factor from 1 to 25 cancels. */
  lemma {:induction false} SmallCancels(d: nat, e: int)
    requires 0 < d <= 25 && (d * e) % 97 == 0
    ensures e % 97 == 0
    decreases d
  {
    if d > 1 {
      var q, r := 97 / d, 97 % d;
      NotADivisor(d);
      assert q * d + r == 97;
      assert r * e == 97 * e - q * (d * e);
      assert d * e == 97 * (d * e / 97);
      assert q * (d * e) == 97 * (q * (d * e / 97));
      SameModulo(r * e, 0, e - q * (d * e / 97));
      SmallCancels(r, e);
    }
  }

  lemma NotADivisor(d: nat)
    requires 2 <= d <= 25
    ensures 97 % d != 0
  {
    assert d in {2, 3, 4, 5, 6, 7, 8, 9, 10, 11, 12, 13, 14, 15, 16, 17, 18, 19, 20, 21, 22, 23, 24, 25};
  }

  lemma ProductNonzero(d: int, e: int)
    requires 0 < d <= 25 || -25 <= d < 0
    requires e % 97 != 0
    ensures (d * e) % 97 != 0
  {
    if (d * e) % 97 == 0 {
      if d > 0 {
        SmallCancels(d, e);
      } else {
        assert -d * e == -(d * e);
        SameModulo(-(d * e), 0, -(d * e / 97));
        SmallCancels(-d, e);
      }
    }
  }

  /** The remainder of [first] + m + [last], where m shifts by P and gives R, and the
      last character shifts by w. */
  function Enclosed(first: nat, P: nat, R: nat, w: nat, last: nat): nat { ((first * P + R) * w + last) % 97 }

  lemma ExchangedEnds(va: nat, vb: nat, P: nat, R: nat, w: nat)
    requires va != vb && -25 <= vb - va <= 25 && (P * w) % 97 != 1
    ensures Enclosed(vb, P, R, w, va) != Enclosed(va, P, R, w, vb)
  {
    var d := vb - va;
    var x, y := (vb * P + R) * w + va, (va * P + R) * w + vb;
    calc {
      x - y;
      (vb * P + R) * w - (va * P + R) * w - d;
      (vb * P - va * P) * w - d;
      d * P * w - d;
      d * (P * w) - d;
      d * (P * w - 1);
    }
    ModuloDifference(x, y);
    ModuloDifference(P * w, 1);
    ProductNonzero(d, P * w - 1);
  }

  lemma EndsPower(m: string, w: nat)
    requires |m| <= 32 && w in {10, 100}
    ensures (Power(Width(m)) * w) % 97 != 1
  {
    var P := Power(Width(m));
    WidthBounds(m);
    if w == 100 {
      assert Power(Width(m) + 2) == P * 10 % 97 * 10 % 97;
      SameModulo(P * 100, P * 10 % 97 * 10, P * 10 / 97 * 10);
      PowerIsNotOne(Width(m) + 2);
    } else {
      PowerIsNotOne(Width(m) + 1);
    }
  }

  lemma LastStep(s: string, c: char)
    ensures Remainder(0, s + [c]) == Step(Remainder(0, s), c)
  {
    assert (s + [c])[..|s|] == s;
  }

  lemma FirstStep(first: char, m: string)
    ensures Remainder(0, [first] + m) == (Value(first) * Power(Width(m)) + Remainder(0, m)) % 97
  {
    assert [first][..0] == "";
    assert Remainder(0, [first]) == Step(0, first) == Value(first);
    RemainderAppends(0, [first], m);
    RemainderAffine(Value(first), m);
  }

  lemma StepEncloses(first: nat, P: nat, R: nat, last: char, w: nat)
    requires w == (if IsLetter(last) then 100 else 10)
    ensures Step((first * P + R) % 97, last) == Enclosed(first, P, R, w, Value(last))
  {
    StepModular(first * P + R, last);
  }

  lemma EndsValue(first: char, m: string, last: char, w: nat)
    requires SameClass(first, last) && w == (if IsLetter(last) then 100 else 10)
    ensures Remainder(0, [first] + m + [last]) ==
      Enclosed(Value(first), Power(Width(m)), Remainder(0, m), w, Value(last))
  {
    FirstStep(first, m);
    LastStep([first] + m, last);
    StepEncloses(Value(first), Power(Width(m)), Remainder(0, m), last, w);
  }

  lemma ValuesClose(a: char, b: char)
    requires SameClass(a, b) && a != b
    ensures Value(a) != Value(b) && -25 <= Value(b) - Value(a) <= 25
  {
  }

  lemma EndsChange(a: char, b: char, m: string, w: nat)
    requires SameClass(a, b) && a != b && |m| <= 32 && w == (if IsLetter(a) then 100 else 10)
    ensures Remainder(0, [b] + m + [a]) != Remainder(0, [a] + m + [b])
  {
    EndsValue(b, m, a, w);
    EndsValue(a, m, b, w);
    ValuesClose(a, b);
    EndsPower(m, w);
    ExchangedEnds(Value(a), Value(b), Power(Width(m)), Remainder(0, m), w);
  }

  /** Exchanging two different neighbours of the same class is always caught. */
  lemma TranspositionCaught(s: string, k: nat)
    requires k + 1 < |s| && Valid(s) && SameClass(s[k], s[k + 1]) && s[k] != s[k + 1]
    ensures !Valid(Swapped(s, k))
  {
    var t := Swapped(s, k);
    if k == 3 {
      var m := s[5..] + s[..3];
      assert Rearranged(s) == [s[4]] + m + [s[3]];
      assert Rearranged(t) == [s[3]] + m + [s[4]];
      EndsChange(s[3], s[4], m, if IsLetter(s[3]) then 100 else 10);
    } else {
      SwapRearranged(s, k);
      if k >= 4 {
        SwapChanges(s[4..k], s[k], s[k + 1], s[k + 2..] + s[..4]);
      } else {
        SwapChanges(s[4..] + s[..k], s[k], s[k + 1], s[k + 2..4]);
      }
    }
    RemainderIsNumber(Rearranged(s));
    RemainderIsNumber(Rearranged(t));
  }

  lemma RemainderOfTwo(r: nat, a: char, b: char)
    ensures Remainder(r, [a, b]) == Step(Step(r, a), b)
  {
    assert [a, b][..1] == [a] && [a][..0] == "";
    assert Remainder(r, [a]) == Step(r, a);
  }
}
