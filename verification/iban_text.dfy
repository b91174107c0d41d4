/** How an account number may be written: spaces and letter case do not matter, the country decides
    the length, and a well-known example passes. */
module IbanText {
  import opened Iban

  lemma {:induction false} NormalizeAppends(a: string, b: string)
    ensures Normalize(a + b) == Normalize(a) + Normalize(b)
  {
    if b == "" {
      assert a + b == a;
    } else {
      assert (a + b)[..|a + b| - 1] == a + b[..|b| - 1];
      NormalizeAppends(a, b[..|b| - 1]);
    }
  }

  lemma NormalizeOne(c: char)
    ensures Normalize([c]) == if IsSpace(c) then "" else [Upper(c)]
  {
    assert [c][..0] == "";
  }

  /** White space anywhere is ignored. */
  lemma SpacesDoNotMatter(a: string, c: char, b: string)
    requires c in {' ', '\t', '\n', '\r'} || c as int in {11, 12}
    ensures Normalize(a + [c] + b) == Normalize(a + b)
  {
    NormalizeAppends(a + [c], b);
    NormalizeAppends(a, [c]);
    NormalizeAppends(a, b);
    NormalizeOne(c);
  }

  /** A small letter anywhere stands for its capital. */
  lemma CaseDoesNotMatter(a: string, c: char, b: string)
    requires 'a' <= c <= 'z'
    ensures Normalize(a + [c] + b) == Normalize(a + [(c as int - 'a' as int + 'A' as int) as char] + b)
  {
    var capital := (c as int - 'a' as int + 'A' as int) as char;
    NormalizeAppends(a + [c], b);
    NormalizeAppends(a, [c]);
    NormalizeAppends(a + [capital], b);
    NormalizeAppends(a, [capital]);
    NormalizeOne(c);
    NormalizeOne(capital);
  }

  /** Neither white space nor a small letter. */
  predicate Plain(s: string) {
    forall i :: 0 <= i < |s| ==>
      !('a' <= s[i] <= 'z') && s[i] !in {' ', '\t', '\n', '\r'} && s[i] as int != 11 && s[i] as int != 12
  }

  predicate PlainChar(c: char) { !('a' <= c <= 'z') && !IsSpace(c) }

  lemma PlainIs(s: string)
    ensures Plain(s) <==> forall i :: 0 <= i < |s| ==> PlainChar(s[i])
  {
  }

  lemma {:induction false} NormalizedChars(s: string)
    ensures forall i :: 0 <= i < |Normalize(s)| ==> PlainChar(Normalize(s)[i])
  {
    if s != "" { NormalizedChars(s[..|s| - 1]); }
  }

  lemma {:induction false} PlainStays(s: string)
    requires forall i :: 0 <= i < |s| ==> PlainChar(s[i])
    ensures Normalize(s) == s
  {
    if s != "" {
      PlainStays(s[..|s| - 1]);
      assert PlainChar(s[|s| - 1]);
      assert s == s[..|s| - 1] + [s[|s| - 1]];
    }
  }

  /** What is left is plain, and plain text is left as it is. */
  lemma NormalizedIsPlain(s: string)
    ensures Plain(Normalize(s)) && Normalize(Normalize(s)) == Normalize(s)
    ensures Plain(s) ==> Normalize(s) == s
  {
    NormalizedChars(s);
    PlainIs(Normalize(s));
    PlainStays(Normalize(s));
    PlainIs(s);
    if Plain(s) { PlainStays(s); }
  }

  /** The lengths the program knows. */
  lemma CountryDecidesLength(s: string)
    requires Valid(s)
    ensures s[..2] in {"XK", "AT"} ==> |s| == 20
    ensures s[..2] == "AL" ==> |s| == 28
    ensures s[..2] in {"DE", "ME", "RS", "GB"} ==> |s| == 22
    ensures s[..2] in {"CH", "HR"} ==> |s| == 21
    ensures s[..2] in {"MK", "SI"} ==> |s| == 19
    ensures s[..2] in {"IT", "FR"} ==> |s| == 27
    ensures s[..2] == "NL" ==> |s| == 18
    ensures s[..2] == "BE" ==> |s| == 16
    ensures 15 <= |s| <= 34
  {
  }

  // ------------------------------------------------------------- an example

  /** Four characters more, each with the remainder it leaves. */
  lemma ReadsFour(s: string, g: string, t: string, r0: nat, r1: nat, r2: nat, r3: nat, r4: nat)
    requires |g| == 4 && t == s + g && Remainder(0, s) == r0
    requires Step(r0, g[0]) == r1 && Step(r1, g[1]) == r2 && Step(r2, g[2]) == r3 && Step(r3, g[3]) == r4
    ensures Remainder(0, t) == r4
  {
    LastStep(s, g[0]);
    LastStep(s + [g[0]], g[1]);
    LastStep(s + [g[0]] + [g[1]], g[2]);
    LastStep(s + [g[0]] + [g[1]] + [g[2]], g[3]);
    assert t == s + [g[0]] + [g[1]] + [g[2]] + [g[3]];
  }

  /** The number of an account in Kosovo, read in fours with the country at the end. */
  lemma KosovoRemainder(s1: string, s2: string, s3: string, s4: string, s5: string)
    requires s1 == "" + "1212" && s2 == s1 + "0123" && s3 == s2 + "4567" && s4 == s3 + "8906" && s5 == s4 + "XK05"
    ensures Remainder(0, s5) == 1
  {
    ReadsFour("", "1212", s1, 0, 1, 12, 24, 48);
    ReadsFour(s1, "0123", s2, 48, 92, 48, 94, 70);
    ReadsFour(s2, "4567", s3, 70, 25, 61, 34, 56);
    ReadsFour(s3, "8906", s4, 56, 83, 63, 48, 1);
    ReadsFour(s4, "XK05", s5, 1, 36, 31, 19, 1);
  }

  lemma IsValid(s: string, r: string)
    requires Shape(s) && r == Rearranged(s) && Remainder(0, r) == 1
    ensures Valid(s)
  {
    RemainderIsNumber(r);
  }

  lemma KosovoShape(s: string)
    requires s == "XK051212012345678906"
    ensures Shape(s)
  {
    assert s[..2] == "XK";
  }

  lemma KosovoRearranged(s: string, s4: string)
    requires s == "XK051212012345678906" && s4 == "1212012345678906"
    ensures |s| >= 4 && Rearranged(s) == s4 + "XK05"
  {
    assert s[4..] == s4 && s[..4] == "XK05";
  }

  /** An account in Kosovo; a digit of it mistyped is found out. */
  lemma KosovoExample(s: string)
    requires s == "XK051212012345678906"
    ensures Valid(s) && !Valid(s[19 := '7'])
  {
    KosovoShape(s);
    KosovoRearranged(s, "" + "1212" + "0123" + "4567" + "8906");
    KosovoRemainder("" + "1212", "" + "1212" + "0123", "" + "1212" + "0123" + "4567",
      "" + "1212" + "0123" + "4567" + "8906", Rearranged(s));
    IsValid(s, Rearranged(s));
    SubstitutionCaught(s, 19, '7');
  }
}
